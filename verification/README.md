# Verified model of the cynthia runtime's concurrency core

cynthia is a work-stealing asynchronous runtime. This project models the hand-written
protocols underneath it in Dafny and proves what they are for: that tasks, queue blocks,
wakers, guards, tokens and bytes are owned by exactly one party at a time, that no
wake-up is lost, and that the data structures mean a simple abstract value.

## How concurrent code is modelled

A protocol is a step machine. The shared state is a datatype, the threads are a sequence
of program counters of any length, and one step performs one atomic operation of the
source (load, store, compare-exchange, fetch-and-modify, or one locked section).
Compare-exchange loops keep their snapshot in the program counter; a weak
compare-exchange may fail for no reason. `Execute` runs any sequence of moves, where a
move names a thread and resolves its free choices (which call it makes, whether a future
panics, whether a wait ends spuriously, what a source yields). Every theorem about a
protocol holds for every initial state, every number of threads and every sequence of
moves. Fields described as histories only record what happened; no step decides by them.

The modules named `...Calls` add what single calls answer and bring about: statements over
every interleaving, and, for each operation, what it does when its thread runs alone from
any reachable state, as a run of the same machine (`Solo` repeats one thread's steps).

Sequential code that updates fields or memory is modelled by classes and methods with
loops (`Sleeper.Sleepers`, `EventList.Inner`, `Colo.Colo`, `Rander.GenMod`, the `Drop` and
`Len` methods of the queues), each proved against a specification function whose own
laws are lemmas.

| file | models |
|---|---|
| `TaskModel`, `TaskLifecycle`, `TaskAwaiter`, `TaskStale`, `TaskWakes`, `TaskCalls`, `TaskWitness` | the task state machine: references, Runnable, future, output, awaiter, wake-ups, and two runs that end badly |
| `UnboundedQueue`, `UnboundedProof`, `UnboundedDrop`, `UnboundedCalls` | the unbounded queue and its block reclamation |
| `BoundedQueue`, `BoundedProof`, `BoundedWords`, `BoundedCalls` | the bounded ring with stamps, and its packed words |
| `Sleeper`, `SleepProtocol`, `SleepProof`, `SleepCalls` | the sleeper list and the executor's sleep/notify protocol |
| `WorkStealing`, `StealCalls` | runners, local queues, `steal` and a runner's search |
| `EventSpec`, `EventList` | the event listener list, as a value and as a linked heap structure |
| `RwLock`, `LockCalls` | the asynchronous RwLock over the starvation-aware Mutex |
| `Pipe`, `PipeProof`, `PipeCalls`, `PipeWake`, `PipeWhole`, `PipeWitness` | the single-producer single-consumer byte pipe, how an end is woken, and the copying pipe together with both its wakers |
| `AtomicWaker`, `Parker` | the waker cell and thread parking |
| `Colo` | the slab with its free list |
| `Rander`, `RandRange` | rejection sampling, the wide multiply, ranged integers |
| `Tally`, `Laps`, `Solo` | sums over threads, positions on rings, a thread that runs alone |

## Results about the code worth knowing

- A detached task that is still pending when its last reference goes is freed without its
  future being dropped. `TaskLifecycle.DisposedBeforeFree` states that this happens exactly
  when neither COMPLETED nor CLOSED is set, and `TaskWitness.DetachedPendingLeaks` is such a run.
- If a poll panics, the guard decides by a word loaded earlier whether an awaiter is
  registered. `TaskStale.GuardDecides` shows that a waiting handle's waker is lost at that
  step if and only if AWAITER is set by then and was not in the word, `TaskStale.NoLostWakeup`
  that a wake-up is lost in no other way, and `TaskWitness.StaleGuardLosesWakeup` is such a run.
- `drain` loads `closed` after `tail`. `PipeWitness.EndMayComeEarly` is a run in which it answers
  0 with a published byte undelivered; `PipeProof.EndIsTrueIff` shows that an answer of 0 is
  the true end of the stream if and only if the tail has not moved when `closed` is loaded.
- A `fill` that finds the pipe closed after its source has been read answers a number that
  counts the last piece, although that piece is lost: `PipeCalls.FillAnswers`.
- The ranged functions for `i8` and `i16` leave their range once the range has at least
  half as many values as the type: `RandRange.RangeIffGood` gives the exact condition and
  `RandRange.I8LeavesItsRange` a concrete call.
- A `Colo` at its limit drops the inserted value and answers key 0, live or not: `Colo.Colo.Insert`
  states when, and `Colo.SecondIsDropped` is such a slab.

## Model

| member | source | states |
|---|---|---|
| `TaskLifecycle.ReferenceCount` | cynthia/src/runtime/task/raw.rs:131-353 | in every reachable state the reference count is the live wakers, the temporary one in `schedule` included, plus the one Runnable or runner, plus runners about to drop their reference; a Runnable or runner exists exactly while SCHEDULED or RUNNING is set, never two; one handle exactly while TASK is set |
| `TaskLifecycle.FreedOnceAndLast` | cynthia/src/runtime/task/raw.rs:248-312 | `destroy` runs at most once, and only when no waker, Runnable, runner or handle is left; whoever gives up a reference finds one and an allocated task |
| `TaskLifecycle.PolledAloneAndAlive` | cynthia/src/runtime/task/raw.rs:290-511 | the future is polled by one thread at a time, never after it was dropped, and dropped at most once, through cancel, detach, Runnable drop and panic |
| `TaskLifecycle.DisposedBeforeFree` | cynthia/src/runtime/task/raw.rs:303-444 | when `destroy` runs, the future has been dropped if and only if the task is completed or closed, and a written output has been taken or dropped exactly once |
| `TaskLifecycle.OutputOnce` | cynthia/src/runtime/task/task.rs:91-209 | the output is written at most once, after the future was dropped, and never taken more often than written |
| `TaskLifecycle.Reachable` | cynthia/src/runtime/task/runnable.rs:79-183 | the ownership invariant holds in every state of every run of wakers, runners, Runnable drops and handle operations |
| `TaskStale.NoLostWakeup` | cynthia/src/runtime/task/header.rs:25-103 | after `poll_task` returned Pending, once the task is completed, or closed and idle, the registered waker has been woken or some thread is committed to waking it, if and only if no panic guard has missed the registration |
| `TaskStale.GuardDecides` | cynthia/src/runtime/task/raw.rs:462-482 | at the guard's step a waiting handle's waker is lost for good if and only if AWAITER is set and was not in the word the guard tests |
| `TaskWakes.WakeIsNeverLost` | cynthia/src/runtime/task/raw.rs:131-235 | after a `wake` or `wake_by_ref` has left its loop, the task is scheduled until it is polled anew, in every continuation, unless it is completed or closed |
| `TaskWakes.ScheduledUntilPolled` | cynthia/src/runtime/task/raw.rs:314-511 | SCHEDULED is cleared only by the step that starts a poll, or with the task completed or closed, which is for good |
| `TaskCalls.AnswersAreTrue` | cynthia/src/runtime/task/task.rs:154-209 | over every run, `poll_task` answers Pending only if there is neither an output nor a closed task without a runner, None only for a closed task, and Some exactly at a step that takes the output, which is there, out of the task |
| `TaskCalls.CompletedIsDelivered` | cynthia/src/runtime/task/task.rs:154-209 | through every interleaving, a `poll_task` that starts on a completed task that is not closed can only answer with the output |
| `TaskCalls.PollDelivers` | cynthia/src/runtime/task/task.rs:189-203 | run alone, it does answer with the output, which then is gone from the task |
| `TaskCalls.CancelledIsNotPolled` | cynthia/src/runtime/task/task.rs:50-89 | once `set_canceled` has left its loop, no continuation starts another poll, and the task stays completed or closed |
| `TaskCalls.CancelCloses` | cynthia/src/runtime/task/task.rs:50-89 | run alone, `set_canceled` closes the task unless it is over, and hands a dormant one to `schedule` |
| `TaskCalls.DetachGivesUp` | cynthia/src/runtime/task/task.rs:91-152 | run alone, `set_detached` clears TASK and takes an unread output out of the task |
| `TaskCalls.WakeSchedules` | cynthia/src/runtime/task/raw.rs:131-235 | run alone on a dormant task, `wake` and `wake_by_ref` set SCHEDULED and hand its one Runnable to `schedule` |
| `TaskCalls.RunEnds` | cynthia/src/runtime/task/raw.rs:314-511 | run alone, `run` leaves a completed task with its output after Ready, the future after Pending, a closed task without its future after a panic or if it was closed |
| `TaskCalls.DropCloses` | cynthia/src/runtime/task/runnable.rs:148-183 | run alone, the drop of a Runnable closes the task and drops its future |
| `TaskAwaiter.CellIsExclusive` | cynthia/src/runtime/task/header.rs:46-103 | the awaiter cell has one user at a time, and `register` never meets another registration |
| `TaskWitness.StaleGuardLosesWakeup` | cynthia/src/runtime/task/raw.rs:462-475 | a run in which the panic guard misses a registration and the pending handle is never woken |
| `TaskWitness.DetachedPendingLeaks` | cynthia/src/runtime/task/raw.rs:431-437 | a run in which a detached pending task is destroyed with its future in place |
| `UnboundedProof.FifoOrder` | cynthia/src/platform/queue/unbounded.rs:98-245 | positions are claimed in order on both sides, and what is popped from a position is what was pushed for it |
| `UnboundedProof.PoppedOnce` | cynthia/src/platform/queue/unbounded.rs:209-238 | a popper about to read a position is the only one on it and finds it not read before: each value comes out at most once |
| `UnboundedProof.FreedOnceAndLast` | cynthia/src/platform/queue/unbounded.rs:59-71 | a block is freed at most once, only after all its 31 values have been popped, and no thread touches it afterwards |
| `UnboundedProof.FreedEventually` | cynthia/src/platform/queue/unbounded.rs:209-238 | the duty to free is never lost: a block whose 31 values are popped and that no popper works on has been freed |
| `UnboundedProof.AnswersAreTrue` | cynthia/src/platform/queue/unbounded.rs:98-245 | Empty and Closed are true at the deciding step, and a popped value is the one pushed at its position |
| `UnboundedProof.ClosedForGood` | cynthia/src/platform/queue/unbounded.rs:285-288 | nothing is accepted after `close`, in any run |
| `UnboundedCalls.CloseRefusesLatePushes` | cynthia/src/platform/queue/unbounded.rs:285-288 | the step of `close` closes the queue and answers true exactly if it was open; in every continuation nothing more is accepted and a push that starts later can only answer Closed |
| `UnboundedCalls.PushAppends` | cynthia/src/platform/queue/unbounded.rs:98-167 | run alone on an idle queue, `push` appends its value to the contents, or answers Closed and changes nothing |
| `UnboundedCalls.PopTakesOldest` | cynthia/src/platform/queue/unbounded.rs:169-245 | run alone on an idle queue, `pop` answers with the oldest value and removes it, or answers Empty or Closed and changes nothing |
| `UnboundedCalls.LenCounts` | cynthia/src/platform/queue/unbounded.rs:247-273 | run alone on an idle queue, `len` answers the number of values |
| `UnboundedDrop.LengthIsTrue` | cynthia/src/platform/queue/unbounded.rs:247-273 | the length `len` answers, over every interleaving of its loads and its re-check of the tail, is the true one at the instant it loaded the head |
| `UnboundedDrop.LenExact` | cynthia/src/platform/queue/unbounded.rs:256-270 | the arithmetic on positions gives the number of value positions between head and tail, also when either is on a block end |
| `UnboundedDrop.Len` | cynthia/src/platform/queue/unbounded.rs:253-270 | the same on index words with their low bits |
| `UnboundedDrop.SlotsExact` | cynthia/src/platform/queue/unbounded.rs:256-270 | those positions are exactly the ones from head to tail that are not block ends |
| `UnboundedDrop.QuietIsSettled` | cynthia/src/platform/queue/unbounded.rs:295-303 | with nobody inside a call, head and tail stand on value positions, every block but the last is linked, every value is written and every block before the head is freed |
| `UnboundedDrop.Drop` | cynthia/src/platform/queue/unbounded.rs:295-325 | drops the queued values in order and frees the blocks from the head's to the tail's, each once |
| `UnboundedDrop.EveryBlockFreedOnce` | cynthia/src/platform/queue/unbounded.rs:295-325 | over the whole life of a queue, poppers and the final drop together free every block exactly once |
| `UnboundedDrop.EveryValueOnce` | cynthia/src/platform/queue/unbounded.rs:295-325 | every value ever accepted is either popped or visited by the final drop, and none twice |
| `BoundedProof.FifoOrder` | cynthia/src/platform/queue/bounded.rs:49-154 | at most `cap` positions are claimed and not popped, position n yields the value pushed for it, and for every position below the head that is not yet popped some thread is about to read that very position |
| `BoundedProof.PoppedOnce` | cynthia/src/platform/queue/bounded.rs:113-131 | a popper about to read a position is alone on it and finds it not read before: each value comes out at most once |
| `BoundedProof.SlotExclusive` | cynthia/src/platform/queue/bounded.rs:76-131 | no two threads are at work on the same slot, so none is written and read together |
| `BoundedProof.ReadsInitialised` | cynthia/src/platform/queue/bounded.rs:126-130 | a popper reads an initialised slot: the value pushed at its position |
| `BoundedProof.AnswersAreTrue` | cynthia/src/platform/queue/bounded.rs:87-176 | Full, Empty and Closed are true at the deciding step, and a length is the true one at the instant the head was loaded |
| `BoundedProof.ClosedForGood` | cynthia/src/platform/queue/bounded.rs:196-199 | nothing is accepted after `close`, in any run |
| `BoundedCalls.CloseRefusesLatePushes` | cynthia/src/platform/queue/bounded.rs:196-199 | the step of `close` closes the queue and answers true exactly if it was open; in every continuation nothing more is accepted and a push that starts later can only answer Closed |
| `BoundedCalls.PushAppends` | cynthia/src/platform/queue/bounded.rs:49-101 | run alone on an idle ring, `push` appends its value, or answers Closed or, with `cap` values there, Full and changes nothing |
| `BoundedCalls.PopTakesOldest` | cynthia/src/platform/queue/bounded.rs:103-154 | run alone on an idle ring, `pop` answers with the oldest value and removes it, or answers Empty or Closed and changes nothing |
| `BoundedCalls.LenCounts` | cynthia/src/platform/queue/bounded.rs:156-176 | run alone on an idle ring, `len` answers the number of values |
| `BoundedProof.LenExact` | cynthia/src/platform/queue/bounded.rs:162-173 | the case distinction on slot indices gives tail minus head |
| `BoundedProof.QuietIsSettled` | cynthia/src/platform/queue/bounded.rs:206-223 | with nobody inside a call, no claim is open and the ring has the shape `Drop` relies on |
| `BoundedProof.EveryValueOnce` | cynthia/src/platform/queue/bounded.rs:206-223 | every value ever accepted is either popped, with its own value, or among those the final drop visits, and none is both |
| `BoundedProof.Drop` | cynthia/src/platform/queue/bounded.rs:206-223 | on an idle ring the final drop visits exactly the queued values, in order, wrapping at the end of the ring |
| `BoundedWords.TailParts` | cynthia/src/platform/queue/bounded.rs:37-58 | index, close bit and open word come out of a packed tail word by the source's masks |
| `BoundedWords.NextIsNext` | cynthia/src/platform/queue/bounded.rs:64-68 | the successor word is the word of the next position, at lap ends too |
| `BoundedWords.PushRefines` | cynthia/src/platform/queue/bounded.rs:52-99 | the branches `push` takes on words are those of the claim-number machine |
| `BoundedWords.PopRefines` | cynthia/src/platform/queue/bounded.rs:106-153 | the branches `pop` takes on words are those of the claim-number machine |
| `BoundedWords.PopWords` | cynthia/src/platform/queue/bounded.rs:128-146 | the stamp a popper leaves frees the slot for the next lap, and the emptiness test ignores the close bit |
| `BoundedWords.InitialStamps` | cynthia/src/platform/queue/bounded.rs:29-35 | the stamps of a new queue mark free slots of the first lap |
| `Sleeper.Sleepers.Insert` | cynthia/src/platform/waker/sleeper.rs:19-27 | registers a waker under the next id |
| `Sleeper.Sleepers.Update` | cynthia/src/platform/waker/sleeper.rs:29-41 | refreshes a listed waker, or lists the ticker again and answers true |
| `Sleeper.Sleepers.Remove` | cynthia/src/platform/waker/sleeper.rs:43-54 | retires an id and answers whether it had been notified |
| `Sleeper.Sleepers.Notify` | cynthia/src/platform/waker/sleeper.rs:60-66 | pops a waker only if every registered ticker is listed |
| `Sleeper.InsertKeeps` | cynthia/src/platform/waker/sleeper.rs:19-27 | an id handed out is never in use; ids in use and free ids together fill 1 to their number |
| `Sleeper.RemoveKeeps` | cynthia/src/platform/waker/sleeper.rs:43-54 | removal keeps the ids exact and touches no other entry |
| `Sleeper.LatestIsPopped` | cynthia/src/platform/waker/sleeper.rs:60-66 | with everybody listed, `notify` pops the ticker listed last and leaves the others |
| `Sleeper.PoppedUnlessNotified` | cynthia/src/platform/waker/sleeper.rs:56-66 | `notify` pops nobody exactly if `is_notified` |
| `Sleeper.SomeUnlisted` | cynthia/src/platform/waker/sleeper.rs:56-58 | if more tickers are registered than listed, one of them is notified and not listed |
| `SleepProof.WorkIsNeverForgotten` | cynthia/src/runtime/executor.rs:38-142 | whenever the global queue is not empty and a ticker is registered, some thread will notify or some ticker will search again |
| `SleepProof.NoLostWakeup` | cynthia/src/runtime/executor.rs:38-142 | with all threads idle or parked with their latest waker not called, and one parked, the global queue is empty |
| `SleepProof.NotifierMayLeave` | cynthia/src/runtime/executor.rs:38-49 | a notifier that finds the flag set may leave: with a ticker registered, some other thread is committed once it has left |
| `SleepProof.IdsAreUnique` | cynthia/src/runtime/executor.rs:66-98 | two registered tickers never share an id |
| `SleepCalls.SchedulingWakes` | cynthia/src/runtime/executor.rs:38-49 | with everybody at rest and a ticker asleep, scheduling a runnable, run alone, calls the latest waker of a sleeping ticker |
| `SleepCalls.TickSleeps` | cynthia/src/runtime/executor.rs:66-132 | a ticker polled alone that finds nothing ends asleep, registered and listed with the waker of this poll |
| `SleepCalls.TickTakes` | cynthia/src/runtime/executor.rs:112-132 | a ticker polled while something is queued takes it at once |
| `WorkStealing.StealNeverFails` | cynthia/src/runtime/executor.rs:339-355 | the assertion in `steal` never fails and `cap - dest.len()` never underflows, whatever other runners take |
| `StealCalls.StealTakesHalf` | cynthia/src/runtime/executor.rs:339-355 | run alone, `steal` moves runnables from the front of its source to the end of the own queue, in order and touching nothing else: half of what is there, rounded up, or as many as fill the own queue |
| `StealCalls.NeverMoreThanHalf` | cynthia/src/runtime/executor.rs:339-355 | through every interleaving, one `steal` takes at most half of what it saw, rounded up |
| `StealCalls.SearchDecides` | cynthia/src/runtime/executor.rs:167-202 | a runner that searches alone, from any start among the local queues, gives up exactly if no queue holds work and otherwise comes back with a runnable |
| `StealCalls.GlobalIsShared` | cynthia/src/runtime/executor.rs:176-179 | a runner that takes from the global queue takes the oldest runnable and, on top of it, half of the rest or what there is room for |
| `WorkStealing.OnlyOwnerPushes` | cynthia/src/runtime/executor.rs:152-212 | nobody but its owner makes a local queue longer |
| `WorkStealing.RunnablesAreConserved` | cynthia/src/runtime/executor.rs:152-226 | every scheduled runnable is in exactly one queue or hand, or has been run, through stealing and runner drop |
| `WorkStealing.DroppedQueueStaysEmpty` | cynthia/src/runtime/executor.rs:214-226 | the drop of a runner ends only with an empty local queue, which stays empty through every interleaving until its thread starts a new search |
| `WorkStealing.RestIsEmpty` | cynthia/src/runtime/executor.rs:168-202 | a search that gives up leaves the runner's local queue empty, and so it stays while the ticker rests; with every runner at rest or gone all local queues are empty and what was scheduled is in the global queue or has been run |
| `EventSpec.DropHandsOn` | cynthia/src/platform/event/listener.rs:314-328 | dropping a notified listener hands the notification on: the exact new count in each case, and somebody stays notified while anybody listens |
| `EventSpec.FastPath` | cynthia/src/platform/event/listener.rs:66-75 | `notify(n)` would change nothing if and only if the published counter lets it skip the lock |
| `EventSpec.FastPathAdditional` | cynthia/src/platform/event/listener.rs:86-104 | `notify_additional(n)` would change nothing if and only if the counter lets it skip the lock or n is 0 |
| `EventSpec.NotifyAbsorbs` | cynthia/src/platform/event/listener.rs:466-492 | notifying n and then m is notifying the larger of the two |
| `EventSpec.NotifyMoreAdds` | cynthia/src/platform/event/listener.rs:495-516 | additional notifications add up |
| `EventSpec.NotifyMarks` | cynthia/src/platform/event/listener.rs:466-492 | `notify(n)` marks the first listeners not notified yet, until n are or all are, and no others |
| `EventSpec.NotifyMoreMarks` | cynthia/src/platform/event/listener.rs:495-516 | `notify_additional(n)` marks the next n, or all that are left, and no others |
| `EventSpec.OneWakeEach` | cynthia/src/platform/event/listener.rs:481-486 | the wake-ups for a run of listeners are, in order, one for each that polls or waits, to its own waker or thread, and none for the others |
| `EventSpec.NotifiedIsWoken` | cynthia/src/platform/event/listener.rs:466-516 | a listener that a call notifies, by notify or by the drop of another, gets the wake-up it wants |
| `EventSpec.WokenIsNotified` | cynthia/src/platform/event/listener.rs:466-516 | and a call wakes nobody else |
| `EventSpec.NotifiedWasWoken` | cynthia/src/platform/event/listener.rs:277-328 | over every run of calls, a listener found notified has been sent the wake-up for the waker or thread it had registered last |
| `EventSpec.Run` | cynthia/src/platform/event/listener.rs:398-517 | over every sequence of calls the notified listeners are exactly a prefix of the list |
| `EventSpec.NotificationSurvives` | cynthia/src/platform/event/listener.rs:314-328 | over every sequence of calls in which listeners leave by dropping, a notification stays with somebody while anybody listens |
| `EventList.Inner.Insert` | cynthia/src/platform/event/listener.rs:399-428 | appends a listener to the doubly linked chain, in the cache entry or a new one, and keeps `start`, `len` and `notified` exact |
| `EventList.Inner.Remove` | cynthia/src/platform/event/listener.rs:430-463 | takes any entry out of the chain, answers its state and keeps everything exact |
| `EventList.Inner.NotifyRounds` | cynthia/src/platform/event/listener.rs:472-516 | the loop of both calls marks n more listeners, or all there are, and wakes them in list order |
| `EventList.Inner.Notify` | cynthia/src/platform/event/listener.rs:466-492 | leaves max(notified, min(n, len)) listeners notified and wakes the new ones in list order |
| `EventList.Inner.NotifyAdditional` | cynthia/src/platform/event/listener.rs:495-516 | notifies n more listeners, as far as there are any, in list order |
| `EventList.Inner.Publish` | cynthia/src/platform/event/listener.rs:335-347 | publishes the counter that the fast path relies on |
| `EventList.Inner.NotifyEvent` | cynthia/src/platform/event/listener.rs:66-75 | with the fast path, still exactly the locked operation |
| `EventList.Inner.NotifyEventAdditional` | cynthia/src/platform/event/listener.rs:86-95 | with the fast path, still exactly the locked operation |
| `EventList.Inner.Poll` | cynthia/src/platform/event/listener.rs:277-312 | ready and gone if notified, else listed with the latest waker |
| `EventList.Inner.BeginWait` | cynthia/src/platform/event/listener.rs:226-237 | done and gone if notified, else listed with the waiting thread |
| `EventList.Inner.Discard` | cynthia/src/platform/event/listener.rs:201-209 | removes the listener and answers whether a notification is thrown away |
| `EventList.Inner.DropListener` | cynthia/src/platform/event/listener.rs:314-328 | removes the listener and hands its notification on, waking the next one |
| `RwLock.WordsAreExact` | cynthia/src/platform/lock/rwlock.rs:39-375 | `state` is twice the read and upgradable guards plus the writer bit, the mutex word is its locked bit plus twice its starved waiters, and a writer, pending or acquired, holds the mutex |
| `RwLock.WriterExcludesAll` | cynthia/src/platform/lock/rwlock.rs:149-184 | an acquired write guard coexists with no other guard, across upgrades, downgrades and cancelled writes |
| `RwLock.TryReadAnswers` | cynthia/src/platform/lock/rwlock.rs:40-62 | over every run, `try_read` answers None exactly if there is a writer, pending or acquired, at the deciding step |
| `RwLock.TryLockAnswers` | cynthia/src/platform/lock/rwlock.rs:95-150 | `try_upgradable_read` and `try_write` answer None at the mutex exactly if somebody holds it or is starved for it |
| `RwLock.TryWriteAnswers` | cynthia/src/platform/lock/rwlock.rs:149-164 | with the mutex, `try_write` answers None exactly if a reader is left, and otherwise has acquired the lock |
| `RwLock.TryUpgradeAnswers` | cynthia/src/platform/lock/rwlock.rs:274-286 | `try_upgrade` gives its guard back exactly if there is another reader, and otherwise has acquired the lock |
| `RwLock.OnlyTriesAreRefused` | cynthia/src/platform/lock/rwlock.rs:40-184 | no other step refuses a call |
| `LockCalls.UnblockedAcquires` | cynthia/src/platform/lock/rwlock.rs:40-184 | each of the six calls ends with its guard if it runs alone and no guard or waiter it has to respect is there |
| `LockCalls.QueuedLocks` | cynthia/src/platform/lock/mutex.rs:44-100 | a call that queues for the mutex, on the slow path or starved, gets it when it runs alone and nobody holds it |
| `LockCalls.WaiterAcquires` | cynthia/src/platform/lock/rwlock.rs:82-180 | a waiting reader reads when there is no writer any more, and a pending writer that has been told acquires the lock when no reader is left |
| `LockCalls.GuardsConvert` | cynthia/src/platform/lock/rwlock.rs:224-375 | dropping, downgrading and upgrading end with the guard they are for |
| `RwLock.ReleasesAreCovered` | cynthia/src/platform/lock/rwlock.rs:224-336 | no release underflows a word or clears another holder's bit |
| `RwLock.QuietIsFree` | cynthia/src/platform/lock/mutex.rs:44-116 | with all guards and futures gone, cancelled or not, both words are zero |
| `RwLock.WriterIsTold` | cynthia/src/platform/lock/rwlock.rs:166-230 | a writer, or upgrading reader, that awaits the readers has been notified, or a reader is left, or the last one is on its way to notify it |
| `PipeProof.OrderedDelivery` | cynthia/src/runtime/blocking/blocking.rs:567-727 | what `drain` hands out is a prefix, in order, of what `fill` took in, never more than the capacity behind |
| `PipeCalls.FillTakesYield` | cynthia/src/runtime/blocking/blocking.rs:709-724 | whatever the reader does meanwhile, `fill` takes in exactly the bytes its source reports, unless the pipe is closed |
| `PipeCalls.FillTakesAll` | cynthia/src/runtime/blocking/blocking.rs:641-727 | run alone on an open pipe, `fill` takes in its source's bytes in order, all of them or as many as there is room for, and looks at the reader's cursor only if it knows of no room |
| `PipeCalls.DrainHandsOutAll` | cynthia/src/runtime/blocking/blocking.rs:567-637 | run alone, `drain` hands out every byte it can see, and looks at the writer's cursor, and at `closed`, only if it sees none |
| `PipeCalls.FillAnswers` | cynthia/src/runtime/blocking/blocking.rs:709-714 | the number `fill` answers is that of the bytes it took in, plus the last piece read if the pipe was found closed |
| `PipeCalls.DrainAnswers` | cynthia/src/runtime/blocking/blocking.rs:612-627 | the number `drain` answers is that of the bytes it handed out |
| `PipeProof.FillInBounds` | cynthia/src/runtime/blocking/blocking.rs:688-709 | writing and lazy zeroing stay in bounds, never touch an unread byte, and the source is offered initialised memory only |
| `PipeProof.DrainInBounds` | cynthia/src/runtime/blocking/blocking.rs:612-620 | the destination is offered initialised bytes in bounds: the next bytes taken in |
| `PipeProof.EndIsTrueIff` | cynthia/src/runtime/blocking/blocking.rs:586-592 | an answer of 0 comes with every byte delivered if and only if the published tail equals the reader's head when `closed` is loaded |
| `PipeWitness.EndMayComeEarly` | cynthia/src/runtime/blocking/blocking.rs:586-592 | a run in which 0 is answered with a published byte undelivered |
| `PipeWhole.Reachable` | cynthia/src/runtime/blocking/blocking.rs:553-727 | the copying pipe and the wakers of both ends, run together down to the steps of the AtomicWaker, keep agreeing on cursors, `closed` and program points |
| `PipeWhole.CopiesAlone` | cynthia/src/runtime/blocking/blocking.rs:567-727 | waking does not disturb the copying: what happens to the pipe is a run of the pipe machine |
| `PipeWhole.ReaderIsWoken` | cynthia/src/runtime/blocking/blocking.rs:567-600 | a reader that returned Pending while bytes are there to be read or the pipe is closed has yielded and woken itself, or has been woken since it registered, or the writer's `wake` has its waker in hand or has yet to look into the cell that holds it |
| `PipeWhole.WriterIsWoken` | cynthia/src/runtime/blocking/blocking.rs:641-676 | the same for a writer that returned Pending while there is room or the pipe is closed |
| `PipeWhole.QuietMeansWoken` | cynthia/src/runtime/blocking/blocking.rs:553-565 | and it has been woken once neither end is inside a `wake` |
| `PipeProof.FillTerminates` | cynthia/src/runtime/blocking/blocking.rs:688-725 | the copy loop of `fill` makes progress towards its end in every step, undisturbed by the reader |
| `PipeProof.DrainTerminates` | cynthia/src/runtime/blocking/blocking.rs:612-636 | the same for `drain` |
| `AtomicWaker.CellIsExclusive` | cynthia/src/platform/atomic_waker/waker.rs:27-82 | one thread at a time touches the cell, for any number of concurrent calls, and the `unwrap` never fails |
| `AtomicWaker.EveryWakerHasOnePlace` | cynthia/src/platform/atomic_waker/waker.rs:27-82 | every stored waker is in the cell, in the hands of exactly one of the threads, or gone by one fate |
| `AtomicWaker.FateIsFinal` | cynthia/src/platform/atomic_waker/waker.rs:27-82 | a stored waker leaves once: returned, woken by the registrant, or overwritten |
| `AtomicWaker.HitRegistrantWakes` | cynthia/src/platform/atomic_waker/waker.rs:36-49 | once a `take` has hit a registration, in every continuation the registrant is on its way to wake its own waker or has woken it |
| `AtomicWaker.TakeHits` | cynthia/src/platform/atomic_waker/waker.rs:66-82 | a `take` that starts during a registration hits it |
| `AtomicWaker.RegisterStores` | cynthia/src/platform/atomic_waker/waker.rs:27-62 | run alone, `register` leaves its waker in the cell, in the place of an earlier one |
| `AtomicWaker.TakeReturnsLast` | cynthia/src/platform/atomic_waker/waker.rs:66-82 | run alone, `take` returns the waker in the cell and leaves it empty |
| `AtomicWaker.WakingEmptiesCell` | cynthia/src/platform/atomic_waker/waker.rs:36-74 | WAKING ends only with an empty cell |
| `Parker.NeverPanics` | cynthia/src/platform/parking/parking.rs:105-167 | no run reaches a panic or failed assertion |
| `Parker.TokensAreConserved` | cynthia/src/platform/parking/parking.rs:105-167 | every token granted is still set, or was consumed by exactly one `park` that answers true |
| `Parker.ParkReturnsByToken` | cynthia/src/platform/parking/parking.rs:105-153 | every call of `park`, on the fast path, with a zero timeout or after a wait, answers true exactly by consuming a token, and false only with a timeout |
| `Parker.UnparkGrants` | cynthia/src/platform/parking/parking.rs:156-167 | over every run, the first step of `unpark` sets the token, and goes on to `notify_one` exactly if it found the parker waiting |
| `Parker.ParkTakesToken` | cynthia/src/platform/parking/parking.rs:105-120 | with the token set, `park` answers true at once, with any timeout |
| `Parker.ParkSleeps` | cynthia/src/platform/parking/parking.rs:105-140 | run alone without a token, `park` goes to sleep, having announced it |
| `Parker.UnparkWakes` | cynthia/src/platform/parking/parking.rs:105-167 | run alone, `unpark` wakes a sleeping parker, whose `park` then answers true and leaves no token behind |
| `Parker.NoLostToken` | cynthia/src/platform/parking/parking.rs:156-167 | the parker never sleeps on a set token unless an unparker is on its way to `notify_one` |
| `Colo.Colo.NextVacant` | cynthia/src/utils/colo.rs:75-81 | the key the next insertion uses, never a live one |
| `Colo.Colo.Insert` | cynthia/src/utils/colo.rs:84-105 | adds the value under the key `next_vacant` announced; at the limit drops it and answers 0 |
| `Colo.SecondIsDropped` | cynthia/src/utils/colo.rs:84-89 | a slab of limit 1 drops the second value and answers 0, the live key of the first |
| `Colo.Colo.Remove` | cynthia/src/utils/colo.rs:108-122 | removes a key from the map, or answers None |
| `Colo.Colo.Get` | cynthia/src/utils/colo.rs:145-151 | looks a key up in the map |
| `Colo.Colo.Retain` | cynthia/src/utils/colo.rs:124-135 | visits the live keys once, in ascending order, with the closure's state carried along, and keeps what the closure keeps, as it left it |
| `Colo.VisitedStateless` | cynthia/src/utils/colo.rs:124-135 | for a closure without state that is exactly filtering and mapping the entries |
| `Colo.Colo.Clear` | cynthia/src/utils/colo.rs:138-142 | empties the map |
| `Colo.Colo.Swap` | cynthia/src/utils/colo.rs:163-172 | exchanges two live values |
| `Colo.FreeListPop` | cynthia/src/utils/colo.rs:94-103 | taking the head of the free list leaves a list over exactly the other vacant slots |
| `Colo.FreeListPush` | cynthia/src/utils/colo.rs:112-117 | a vacated slot becomes the head of a list over exactly the vacant slots |
| `Colo.LenCounts` | cynthia/src/utils/colo.rs:65-67 | live values and free list make up the slots, so `len` is the size of the map |
| `Rander.GenMod` | cynthia/src/utils/rander.rs:52-97 | returns the high word of the first accepted draw |
| `Rander.AcceptedInterval` | cynthia/src/utils/rander.rs:52-65 | the accepted draws with result k are floor(m / n) neighbouring numbers |
| `Rander.Unbiased` | cynthia/src/utils/rander.rs:52-97 | every result below n comes from exactly (m - m mod n) / n accepted draws, for every width |
| `Rander.MulHighIsHigh` | cynthia/src/utils/rander.rs:121-129 | `mul_high_u128` is the exact high word of the product |
| `Rander.MulHighFits` | cynthia/src/utils/rander.rs:122-127 | no product of halves and no carry sum overflows |
| `Rander.MulHighSumFits` | cynthia/src/utils/rander.rs:128-128 | nor does any partial sum of the result |
| `RandRange.BoundsAreExact` | cynthia/src/utils/rander.rs:136-158 | the call panics exactly on empty ranges and otherwise has the exact bounds |
| `RandRange.RangeIffGood` | cynthia/src/utils/rander.rs:160-165 | every possible answer lies in the range if and only if the type is unsigned, or as wide as its generator, or the range is shorter than half the type |
| `RandRange.RangeUnbiased` | cynthia/src/utils/rander.rs:160-165 | and then every value of the range comes from equally many draws |
| `RandRange.MostTypesStayInRange` | cynthia/src/utils/rander.rs:233-344 | u8 to u128, i32, i64 and i128 stay within every range |
| `RandRange.ShortTypesNeedShortRanges` | cynthia/src/utils/rander.rs:233-245 | i8 and i16 stay within a range if and only if it is shorter than half the type |
| `RandRange.I8LeavesItsRange` | cynthia/src/utils/rander.rs:163-164 | `i8(-100..=100)` answers -128 on the draw 2^31 |

## Left out

- Weak memory orderings, counter overflow and the abort paths that guard against it: steps are sequentially consistent and counters unbounded.
- Liveness and fairness: the no-lost-wake-up theorems say that someone is committed, not when that thread runs.
- RwLock.WriterIsTold: the `no_readers` event has the one listener a mutex holder can have; waiting readers (`no_writer`) and waiting lockers (`lock_ops`) may try again at any time, and their events are not modelled.
- `is_empty` and `is_full` of the queues: two loads without a loop, thin beside `len`.
- WorkStealing.RunnablesAreConserved: each queue call is one step, relying on the FIFO theorems of the two queues rather than on their step machines.
- SleepProof.NoLostWakeup: speaks of the global queue; a search in the local queues may succeed at any time, the local queues of runners at rest are the subject of `WorkStealing.RestIsEmpty`, and the pushes of a runner being dropped are those of another idle thread.
- UnboundedDrop.Drop: works on the value of an idle queue, not on heap blocks, so aliasing of block pointers is captured by block numbers only.
- BoundedProof.Drop: works on the value of an idle ring, not on memory.
- EventList.Inner.BeginWait: the park loop of `wait` and its deadline are not modelled beyond the first locked section.
- Colo.Colo.Retain: a closure that panics half way is not modelled.
- Rander.GenMod: the generator is a sequence of draws; the statistical quality of its bits is not modelled.
- Task metadata (`nice`, names), `spawn_local`'s thread check and boxing of large futures: no influence on the protocol.
- The task's own waker passed to `poll` is borrowed by the running thread only; a future that leaks it must clone it, which is modelled.
- The reactor, sockets, files, processes, timers, channels, semaphores, barriers, wait groups, byte pools and stream adapters: system calls or thin layers over the modelled parts.
- The blocking `platform/mutex/mutex.rs` and `utils/parking.rs`: a variant and a copy of modelled code.
