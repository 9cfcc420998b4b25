# Verification of the realtime_tools concurrency protocols

This project models the hand-written concurrency protocols of realtime_tools and proves what they are for.
Each protocol is a step machine at the grain of single loads, stores, lock operations, waits and notifies.
A machine is a total function `Next(state, action)`; an action that is not enabled leaves the state alone, so a
schedule is any sequence of actions and a theorem about `Exec(Init(...), acts)` holds for every interleaving of
any number of calls and any length of run. The same protocol also exists as a class with the fields of the
original, whose methods perform one statement in place and are proved to move the object exactly as `Next` does;
`Schedule` performs any schedule on the object.

| files | protocol |
|---|---|
| `Runs.dfy` | runs, invariants over runs, bounded work; shared by all |
| `SynchronizedProtocol.dfy`, `SynchronizedRuns.dfy`, `SynchronizedProgress.dfy`, `SynchronizedWaiters.dfy`, `SynchronizedCalls.dfy`, `SynchronizedHandler.dfy` | `AsyncFunctionHandler`, SYNCHRONIZED: trigger hand-off, waiters, start, stop, reset, exceptions |
| `DetachedProtocol.dfy`, `DetachedRuns.dfy`, `DetachedCalls.dfy`, `DetachedHandler.dfy`, `Pacing.dfy` | `AsyncFunctionHandler`, DETACHED: pause, resume, stop, pacing with overrun catch-up, measured periods |
| `HandlerTypes.dfy` | names shared by the two policies |
| `PublisherProtocol.dfy`, `PublisherCalls.dfy`, `RealtimePublisher.dfy` | `RealtimePublisher`: the `turn_` hand-off, stop, construction and destruction |
| `GoalProtocol.dfy`, `GoalCalls.dfy`, `RealtimeServerGoalHandle.dfy` | `RealtimeServerGoalHandle`: requests, feedback, `runNonRealtime`, client cancel |
| `BufferProtocol.dfy`, `RealtimeBuffer.dfy` | `RealtimeBuffer`: two heap cells whose roles are swapped |
| `QueueProtocol.dfy`, `LockFreeQueue.dfy` | `LockFreeQueueBase`: push, pop, `bounded_push`, `get_latest` |
| `BoxProtocol.dfy`, `BoxRegister.dfy`, `RealtimeThreadSafeBox.dfy` | `RealtimeThreadSafeBox`: two-lock assignment, set, get |

## Assumptions

- Atomics are sequentially consistent, and `async_exception_ptr_` is read and written as if it were atomic.
- Mutexes exclude; `try_lock` may fail even on a free mutex. Condition variables follow section 32.6 of
  ISO/IEC 14882:2020: release and sleep are one step, and wakeups may be spurious. A thread that has found its
  predicate false but still holds the mutex is in a state of its own, apart from the sleeping one.
- A predicate read from several variables is evaluated in one step where all but the last read are of variables
  that cannot change at that point, which makes that step exact.
- A thread identifier names a thread, which makes any number of calls, one at a time.
- Callbacks, `publish` and feedback updates end; an async callback or a feedback update callback may throw. Clock
  readings are arbitrary inputs; only the steady clock is monotone. One control thread calls `start_thread`,
  `stop_thread` and `reset_variables`.
- The external goal handle changes state as in section "Goal States" of the ROS 2 design article "Actions" and
  throws on an event its state does not allow.
- The queue's container operations are atomic steps on a bounded sequence.
- Results, feedback, callback values and times are integers; messages and box contents are of any type.

## Findings

- `pause_execution` under DETACHED returns true with the pause already lifted when a trigger that loaded the pause
  earlier clears it between the store and the lock: `DetachedRuns.PauseCanBeLost`. It is a barrier if and only if
  `pause_thread_` is still set when it holds the mutex: `DetachedRuns.PauseExecutionIsBarrier`.
- The documentation of `realtime_server_goal_handle.hpp` says feedback is published only while the goal is executing.
  A client cancel that lands between the test and the publication makes the goal canceling by the time it is
  published (`GoalProtocol.FeedbackWhileCanceling`), and nothing else does
  (`GoalProtocol.ExecutingIffNoCancelBetween`, `GoalProtocol.EveryPublication`). It is never published after a
  terminal event.
- An abort or success overtaken by a client cancel is never delivered, and since its flag stays up no cancel can be
  requested either, so the goal never ends: `GoalProtocol.AbortOvertaken` gives the schedule,
  `GoalProtocol.OvertakenForever` the consequence and `GoalProtocol.DeliverableIffNotOvertaken` the exact condition.
- A reset that clears a pending trigger strands a sleeping waiter (`SynchronizedWaiters.ResetStrandsWaiter`): without a
  stop, another trigger or a spurious wakeup it is never woken, if and only if `trigger_in_progress_` was set and the
  notify of the cycle before is not still to come (`SynchronizedWaiters.ResetStrandsIffPending`).
- `stop_thread` can strand a waiter, too: the worker may leave at its outer test with a trigger pending and without a
  notify (`SynchronizedWaiters.StopStrandsWaiter`). It wakes a sleeping waiter if and only if the worker is not at that
  test when the flag is set (`SynchronizedWaiters.StopWakesIff`), and once the worker has exited a wait call hangs, even
  under spurious wakeups, if and only if `trigger_in_progress_` is set or about to be
  (`SynchronizedWaiters.WaitHangsIffPending`).
- An update callback of `trySetFeedback` that throws after an earlier `trySetFeedback` leaves its partial write to be
  published: `GoalProtocol.TornFeedback`. A throw is harmless if and only if the stored feedback is not the
  preallocated message: `GoalProtocol.ThrowIsHarmlessIffNotPreallocated`.
- `bounded_push` can return false as soon as there is a second producer, whatever the capacity
  (`QueueProtocol.TwoProducersCanFail`): it always returns true if and only if there is at most one
  (`QueueProtocol.SucceedsIffSingleProducer`).
- Box assignments can deadlock round any cycle of boxes (`BoxProtocol.CycleCanBlock`): a set of assignments is free of
  deadlock if and only if the boxes can be ranked, source above target (`BoxProtocol.DeadlockFreeIffRanked`).
- The overrun bound holds for every positive rate, also above one gigahertz, where the period truncates to zero.

## Model

| member | source | states |
|---|---|---|
| `SynchronizedRuns.ExactlyOnce` | realtime_tools/include/realtime_tools/async_function_handler.hpp:602-625 | in every run under every schedule the callback was given the arguments of exactly those accepted triggers that no stop skipped and no reset cleared, in order and once each; accepted = ran + skipped + cleared + pending |
| `SynchronizedRuns.CallHasItsTrigger` | realtime_tools/include/realtime_tools/async_function_handler.hpp:606-614 | a worker about to invoke the callback always has a pending trigger, whose own arguments it passes, whatever spurious wakeups and stops there were |
| `SynchronizedRuns.UndisturbedRun` | realtime_tools/include/realtime_tools/async_function_handler.hpp:365-376 | without stop and reset the callback sees every accepted trigger in order, all but at most the last one already |
| `SynchronizedProgress.PendingIsRun` | realtime_tools/include/realtime_tools/async_function_handler.hpp:602-625 | without stop and reset a pending trigger has run, callback and all, within nine statements of the worker, in any run; only a caller nearer its unlock or a notify still owed holds the worker up |
| `SynchronizedRuns.NoLostWakeup` | realtime_tools/include/realtime_tools/async_function_handler.hpp:526-530 | a worker asleep with a trigger or a stop to see is still owed a notify, and one between its false predicate and its sleep can have missed a stop only if the stopper has yet to pass the empty critical section |
| `SynchronizedRuns.StopSilencesCallback` | realtime_tools/include/realtime_tools/async_function_handler.hpp:523-533 | once stop_thread holds the mutex no callback starts in any run until the next start or reset |
| `SynchronizedRuns.StopBoundsWorker` | realtime_tools/include/realtime_tools/async_function_handler.hpp:604-624 | once the stop flag is set the worker performs at most as many more statements as its rank, hence at most eleven, in any run |
| `SynchronizedRuns.JoinNotStuck` | realtime_tools/include/realtime_tools/async_function_handler.hpp:530-532 | at the join the worker can move, or waits for a mutex holder that can move and is nearer its unlock; once it has exited the join returns |
| `SynchronizedRuns.AtMostOneMoreAfterThrow` | realtime_tools/include/realtime_tools/async_function_handler.hpp:338-376 | after a callback has thrown each thread gets at most one more trigger accepted, none unless its call is already past the exception check, and later calls rethrow |
| `SynchronizedRuns.WaitersNotStranded` | realtime_tools/include/realtime_tools/async_function_handler.hpp:423-431 | in every run a waiter asleep with no trigger pending is about to be notified by the worker, unless a reset has cleared a trigger since its call began |
| `SynchronizedWaiters.WokenIffNotifying` | realtime_tools/include/realtime_tools/async_function_handler.hpp:423-431 | a waiter asleep with no trigger pending is woken, in some run without a stop, a reset, another trigger and a spurious wakeup, if and only if the worker is about to notify |
| `SynchronizedWaiters.ResetStrandsIffPending` | realtime_tools/include/realtime_tools/async_function_handler.hpp:407-417 | a reset strands a sleeping waiter, so that no run wakes it without a stop, another reset, another trigger or a spurious wakeup, if and only if trigger_in_progress_ is set when the reset clears it and the worker is not about to notify |
| `SynchronizedWaiters.ResetStrandsWaiter` | realtime_tools/include/realtime_tools/async_function_handler.hpp:407-417 | a schedule from the initial state to such a stranded waiter |
| `SynchronizedWaiters.StopWakesIff` | realtime_tools/include/realtime_tools/async_function_handler.hpp:523-533 | once the stop flag is set a sleeping waiter is woken, in some run without start, reset and a spurious wakeup of it, if and only if the worker is not at its outer test or gone |
| `SynchronizedWaiters.WaitHangsIffPending` | realtime_tools/include/realtime_tools/async_function_handler.hpp:604-623 | once the worker has exited a wait call under way returns in no run without start and reset, spurious wakeups or not, if and only if trigger_in_progress_ is set or about to be and the call is not about to return |
| `SynchronizedWaiters.StopStrandsWaiter` | realtime_tools/include/realtime_tools/async_function_handler.hpp:523-533 | a schedule after which stop_thread has returned and a wait call hangs for good |
| `SynchronizedProgress.WaiterReturns` | realtime_tools/include/realtime_tools/async_function_handler.hpp:423-431 | once no trigger is pending, a wait call since whose beginning no reset has cleared one returns within four statements of its own, in any run without stop, reset and another accepted trigger; it is asleep only while the worker is about to notify |
| `SynchronizedRuns.WaitRemembersStart` | realtime_tools/include/realtime_tools/async_function_handler.hpp:426-428 | a wait call keeps the number of triggers accepted when it began until it returns from a predicate that held |
| `SynchronizedRuns.WaitSeesEarlierTriggers` | realtime_tools/include/realtime_tools/async_function_handler.hpp:426-428 | when a wait returns, the fate of every trigger accepted before the call began is decided; those that ran were given to the callback in order and have ended, and that is all of them unless a stop skipped or a reset cleared one of them |
| `SynchronizedCalls.ThrowStopsTriggers` | realtime_tools/include/realtime_tools/async_function_handler.hpp:611-616 | from the moment a callback throws until the next reset a thread gets at most one more trigger accepted, none unless its call is already past the exception check, and no later call passes that check |
| `SynchronizedCalls.OutcomesAreKept` | realtime_tools/include/realtime_tools/async_function_handler.hpp:338-342 | in every run the captured exception is that of the last callback that threw since the last reset, and the return value that of the last callback that returned, or zero after a reset |
| `SynchronizedCalls.CallsWereTriggered` | realtime_tools/include/realtime_tools/async_function_handler.hpp:365-372 | in every run the callback is only ever given the time and the period of a trigger call that was made and won its lock |
| `SynchronizedCalls.TriggerAlone` | realtime_tools/include/realtime_tools/async_function_handler.hpp:332-379 | an uninterrupted trigger call throws, changes nothing, or is accepted with its own arguments and wakes the worker, each under its exact condition |
| `SynchronizedCalls.WaitAlone` | realtime_tools/include/realtime_tools/async_function_handler.hpp:423-431 | an uninterrupted wait call returns at once or falls asleep, under its exact condition |
| `SynchronizedCalls.ResetAlone` | realtime_tools/include/realtime_tools/async_function_handler.hpp:407-417 | an uninterrupted reset clears both flags, the arguments, the result and the exception |
| `SynchronizedCalls.StartAlone` | realtime_tools/include/realtime_tools/async_function_handler.hpp:554-600 | start_thread resets and spawns the worker, unless one runs |
| `SynchronizedCalls.StopAlone` | realtime_tools/include/realtime_tools/async_function_handler.hpp:523-533 | stop_thread sets the flag and wakes the worker, unless none runs |
| `SynchronizedCalls.CycleAlone` | realtime_tools/include/realtime_tools/async_function_handler.hpp:602-625 | a whole cycle calls back with the stored arguments, keeps the result or the exception, clears the trigger and wakes the waiters |
| `SynchronizedCalls.CycleStops` | realtime_tools/include/realtime_tools/async_function_handler.hpp:604-625 | with the stop flag set a cycle skips the callback, drops a pending trigger, wakes the waiters and ends the worker |
| `SynchronizedHandler.Handler.Schedule` | realtime_tools/include/realtime_tools/async_function_handler.hpp:332-693 | any schedule performed on the object keeps the invariant and is a run of the protocol |
| `DetachedRuns.PauseIsBarrier` | realtime_tools/include/realtime_tools/async_function_handler.hpp:649-654 | from a quiet paused state no callback starts in any run in which no trigger clears the pause |
| `DetachedRuns.PauseExecutionIsBarrier` | realtime_tools/include/realtime_tools/async_function_handler.hpp:448-455 | when pause_execution holds the mutex, no callback starts in any run until a trigger clears the pause if and only if pause_thread_ is still set; and it is if no trigger has cleared it since the store |
| `DetachedRuns.CallbackCanStart` | realtime_tools/include/realtime_tools/async_function_handler.hpp:638-692 | from any state in which the pause is lifted and no caller inside is about to clear it again, whatever the worker and the control thread are doing, some run without another resume starts a callback |
| `DetachedRuns.PauseFromStoreToLock` | realtime_tools/include/realtime_tools/async_function_handler.hpp:448-455 | in every run whoever holds the mutex in pause_execution stored the pause and then locked, and finds it lifted only if a trigger has cleared it since that store |
| `DetachedRuns.PauseCanBeLost` | realtime_tools/include/realtime_tools/async_function_handler.hpp:343-356 | a schedule in which a trigger that loaded the pause clears it between the store and the lock, after which callbacks start without another trigger |
| `DetachedRuns.StoreIsRemembered` | realtime_tools/include/realtime_tools/async_function_handler.hpp:450-451 | a pauser is registered by its store of the pause flag and keeps the number of resumes at that store |
| `DetachedRuns.NoLostWakeup` | realtime_tools/include/realtime_tools/async_function_handler.hpp:343-360 | a worker asleep in either wait with the pause lifted or a stop requested is still owed a notify, so neither a resuming trigger nor a stop is lost |
| `DetachedRuns.ResumeIsServed` | realtime_tools/include/realtime_tools/async_function_handler.hpp:343-360 | once the pause is lifted the next callback starts within fourteen statements of the worker, in any run without stop, reset and another pause; only a caller inside, a notify still owed or an unfinished sleep holds it up |
| `DetachedRuns.StopSilencesCallback` | realtime_tools/include/realtime_tools/async_function_handler.hpp:649-654 | once stop_thread holds the mutex no callback starts in any run until the next start or reset |
| `DetachedRuns.StopBoundsWorker` | realtime_tools/include/realtime_tools/async_function_handler.hpp:640-692 | once the stop flag is set the worker performs at most thirteen more statements in any run, from either wait, from its sleep or from inside the callback |
| `DetachedRuns.JoinNotStuck` | realtime_tools/include/realtime_tools/async_function_handler.hpp:530-532 | at the join the worker can move, or sleeps its first period, or waits for a mutex holder that is nearer its unlock; once it has exited the join returns |
| `DetachedRuns.NeverFastNeverDrifting` | realtime_tools/include/realtime_tools/async_function_handler.hpp:638-688 | in every run every deadline is the anchor plus a whole number of periods, at least one per callback done; the n-th callback never starts before anchor + (n-1) periods; no sleep exceeds one period |
| `DetachedRuns.OverrunCatchesUp` | realtime_tools/include/realtime_tools/async_function_handler.hpp:671-687 | after an overrun of k rounded-up periods the new deadline is on the grid, later than now - k ns and before now + period, and not before now when the rate divides a second |
| `DetachedRuns.PeriodsTelescope` | realtime_tools/include/realtime_tools/async_function_handler.hpp:656-664 | the periods given to the callbacks of a segment sum to the last callback time minus the previous_time_ the segment began with, and the first is measured from it |
| `DetachedRuns.SegmentsBegin` | realtime_tools/include/realtime_tools/async_function_handler.hpp:348-356 | a segment begins only at the worker's first clock reading or at a resume, which sets previous_time_ to its reading minus one period, so paused time is never charged |
| `Pacing.CatchUp` | realtime_tools/include/realtime_tools/async_function_handler.hpp:671-686 | for every rate >= 1 and lateness d > 0, with p = floor(1e9/rate) and k = ceil(d*rate/1e9): -k < k*p - d < p |
| `Pacing.CatchUpExact` | realtime_tools/include/realtime_tools/async_function_handler.hpp:671-686 | when the rate divides 1e9 the catch-up lands in [now, now + p) |
| `Pacing.OverrunRoundsUp` | realtime_tools/include/realtime_tools/async_function_handler.hpp:674-677 | the quotient of milliseconds the source takes is d*rate/1e9 and its ceiling is the least k with d*rate <= k*1e9 |
| `Pacing.DeadlineAdvances` | realtime_tools/include/realtime_tools/async_function_handler.hpp:671-686 | an iteration begun no earlier than its deadline moves the deadline by a whole positive number of periods and never more than one period past the present |
| `Pacing.AdvanceDeadline` | realtime_tools/include/realtime_tools/async_function_handler.hpp:671-686 | the worker's own computation of the next deadline, with its bounds with and without overrun |
| `DetachedCalls.EveryResume` | realtime_tools/include/realtime_tools/async_function_handler.hpp:348-352 | in every run every resume is the work of a trigger call whose load found the pause set |
| `DetachedCalls.UnpausedRun` | realtime_tools/include/realtime_tools/async_function_handler.hpp:348-357 | in every run without a pause no trigger resumes anything and only the first clock reading of a worker begins a segment |
| `DetachedCalls.UnpausedPeriods` | realtime_tools/include/realtime_tools/async_function_handler.hpp:656-664 | in every run without pause, stop and reset the periods given to all callbacks sum to the last callback time minus the first clock reading |
| `DetachedCalls.OutcomesAreKept` | realtime_tools/include/realtime_tools/async_function_handler.hpp:668-672 | in every run the captured exception is that of the last callback that threw since the last reset, and the return value that of the last callback that returned, or zero after a reset or a resume |
| `DetachedCalls.ThrowStopsTriggers` | realtime_tools/include/realtime_tools/async_function_handler.hpp:668-672 | from the moment a callback throws until the next reset no trigger call passes its exception check, in any run |
| `DetachedCalls.TriggerAlone` | realtime_tools/include/realtime_tools/async_function_handler.hpp:332-358 | an uninterrupted trigger call throws, leaves an unpaused handler alone, or resumes a paused one: pause lifted, result zero, previous_time_ one period ago, worker woken |
| `DetachedCalls.PauseAlone` | realtime_tools/include/realtime_tools/async_function_handler.hpp:448-455 | an uninterrupted pause_execution sets the flag and nothing else, unless no thread runs |
| `DetachedCalls.WorkerStarts` | realtime_tools/include/realtime_tools/async_function_handler.hpp:627-642 | a worker that finds the handler unpaused reads the clock, sleeps one period and anchors the grid where it wakes |
| `DetachedCalls.CycleAlone` | realtime_tools/include/realtime_tools/async_function_handler.hpp:654-688 | a whole cycle gives the callback its reading and the time since the one before, keeps its outcome and sleeps with the lock to the next deadline |
| `DetachedHandler.Handler.Schedule` | realtime_tools/include/realtime_tools/async_function_handler.hpp:332-693 | any schedule performed on the object keeps the invariant and is a run of the protocol |
| `PublisherProtocol.ExactlyOnce` | realtime_tools/include/realtime_tools/realtime_publisher.hpp:155-168 | for any number of callers, spurious wakeups and stops the published sequence is a prefix of the accepted one, at most one message shorter, and the missing message is intact in msg_ |
| `PublisherProtocol.StoreErasesNothing` | realtime_tools/include/realtime_tools/realtime_publisher.hpp:245-249 | when the loop stores REALTIME without the lock, nothing accepted is unpublished and no caller is between its test of turn_ and its store |
| `PublisherProtocol.PendingSurvives` | realtime_tools/include/realtime_tools/realtime_publisher.hpp:219-222 | in any run an accepted message stays the only pending one, with msg_ unchanged, until it is published |
| `PublisherProtocol.NoLostWakeup` | realtime_tools/include/realtime_tools/realtime_publisher.hpp:251-252 | a loop asleep with its wait predicate true is still owed a notify by a caller |
| `PublisherProtocol.StopBoundsLoop` | realtime_tools/include/realtime_tools/realtime_publisher.hpp:127-134 | after keep_running_ is cleared the loop performs at most its rank (at most ten) more statements and publishes at most one more message, in any run |
| `PublisherProtocol.StoppedLoopNotStuck` | realtime_tools/include/realtime_tools/realtime_publisher.hpp:241-262 | after the stop notify a loop that has not exited can move, or waits for a mutex holder that can move and is nearer its unlock |
| `PublisherProtocol.PendingIsServed` | realtime_tools/include/realtime_tools/realtime_publisher.hpp:245-259 | while nobody stops the publisher a pending message is published within ten statements of the loop, which is held up only by a mutex holder or a notify still owed |
| `PublisherProtocol.Handshake` | realtime_tools/include/realtime_tools/realtime_publisher.hpp:196-212 | initialize returns only after the loop stored is_running_ and opened the turn; the destructor's polling ends only after the loop has exited |
| `PublisherCalls.AnyMessageCanGoOut` | realtime_tools/include/realtime_tools/realtime_publisher.hpp:241-262 | until it is stopped, from every state with the mutex free, any message can be accepted and published next |
| `PublisherCalls.TryPublishAlone` | realtime_tools/include/realtime_tools/realtime_publisher.hpp:155-168 | an uninterrupted try_publish stores its message, hands over the turn, wakes the loop and returns true if and only if the turn is REALTIME, and otherwise returns false and changes nothing |
| `PublisherCalls.TryPublishLands` | realtime_tools/include/realtime_tools/realtime_publisher.hpp:155-168 | a try_publish that finds the turn REALTIME gets its message accepted next, in every run |
| `PublisherCalls.TrueMeansAccepted` | realtime_tools/include/realtime_tools/realtime_publisher.hpp:155-168 | in every run try_publish has returned true once for every accepted message, but for calls that have yet to notify |
| `PublisherCalls.MessagesWereCalls` | realtime_tools/include/realtime_tools/realtime_publisher.hpp:155-168 | in every run only messages given to try_publish are accepted and published |
| `PublisherCalls.CanPublishAlone` | realtime_tools/include/realtime_tools/realtime_publisher.hpp:140-144 | can_publish with the lock answers whether the turn is REALTIME |
| `PublisherCalls.LostLockIsFalse` | realtime_tools/include/realtime_tools/realtime_publisher.hpp:155-168 | try_publish and can_publish return false and touch nothing when their try-lock fails |
| `PublisherCalls.LoopAlone` | realtime_tools/include/realtime_tools/realtime_publisher.hpp:241-262 | one iteration of the loop publishes the message there is and opens the turn again, sleeps when there is none, and exits without publishing after a stop |
| `PublisherCalls.StopAlone` | realtime_tools/include/realtime_tools/realtime_publisher.hpp:127-134 | stop clears the flag and wakes the loop |
| `PublisherCalls.ConstructAlone` | realtime_tools/include/realtime_tools/realtime_publisher.hpp:196-212 | initialize returns after the loop's first three statements, with the publisher running and the turn open, and not before |
| `PublisherCalls.DestroyAlone` | realtime_tools/include/realtime_tools/realtime_publisher.hpp:106-118 | the destructor of a live publisher stops it, polls until the loop has exited without publishing, and joins it |
| `RealtimePublisher.Publisher.Schedule` | realtime_tools/include/realtime_tools/realtime_publisher.hpp:106-262 | any schedule performed on the object keeps the invariant and is a run of the protocol |
| `GoalProtocol.SingleOutcome` | realtime_tools/include/realtime_tools/realtime_server_goal_handle.hpp:106-143 | in every run at most one terminal flag is up, a raised flag goes with the result of the request that raised it, and at most one terminal event is delivered, with the kind and result of a request |
| `GoalProtocol.DeliveryAnswersLastRequest` | realtime_tools/include/realtime_tools/realtime_server_goal_handle.hpp:233-244 | a delivery carries the kind and result of the last accepted request, whose flag is still up |
| `GoalProtocol.NothingAfterTheEnd` | realtime_tools/include/realtime_tools/realtime_server_goal_handle.hpp:225-247 | after the terminal event nothing is delivered or published in any run |
| `GoalProtocol.RequestIsDelivered` | realtime_tools/include/realtime_tools/realtime_server_goal_handle.hpp:219-252 | a raised request legal in the goal's state is delivered by the next runNonRealtime, with its result, unless the client asks for cancellation meanwhile |
| `GoalProtocol.DeliverableIffNotOvertaken` | realtime_tools/include/realtime_tools/realtime_server_goal_handle.hpp:225-244 | an abort or a success that is up can still be delivered, in some run, if and only if the client has not asked for cancellation or the runner has passed its test already |
| `GoalProtocol.OvertakenForever` | realtime_tools/include/realtime_tools/realtime_server_goal_handle.hpp:106-143 | otherwise the goal never ends, in any run: the flag stays up and keeps every other request out |
| `GoalProtocol.AbortOvertaken` | realtime_tools/include/realtime_tools/realtime_server_goal_handle.hpp:106-143 | a schedule from the initial state to such a goal, for every result |
| `GoalProtocol.RunnerProgress` | realtime_tools/include/realtime_tools/realtime_server_goal_handle.hpp:225-252 | each statement of runNonRealtime brings it nearer its unlock and nobody else moves it |
| `GoalProtocol.FeedbackIsLastSet` | realtime_tools/include/realtime_tools/realtime_server_goal_handle.hpp:174-205 | every published feedback is the whole value left by the last successful setFeedback or trySetFeedback, unless it is the preallocated message after an update callback threw; it is published while the goal is executing or canceling |
| `GoalProtocol.ExecutingIffNoCancelBetween` | realtime_tools/include/realtime_tools/realtime_server_goal_handle.hpp:245-247 | once the test has found the goal executing, the publication finds it executing if and only if no client cancel is among the steps between, whatever else is |
| `GoalProtocol.EveryPublication` | realtime_tools/include/realtime_tools/realtime_server_goal_handle.hpp:225-247 | in every run every publication follows a test that found the goal executing, and finds it executing if and only if no client cancel came between the two |
| `GoalProtocol.FeedbackWhileCanceling` | realtime_tools/include/realtime_tools/realtime_server_goal_handle.hpp:245-247 | a schedule from the initial state in which feedback is published while the goal is canceling |
| `GoalProtocol.NoTornFeedback` | realtime_tools/include/realtime_tools/realtime_server_goal_handle.hpp:196-205 | while an update callback runs, in any run, nothing is published and the mutex is its own; when it returns, what it wrote last is what will be published |
| `GoalProtocol.ThrowIsHarmlessIffNotPreallocated` | realtime_tools/include/realtime_tools/realtime_server_goal_handle.hpp:198-203 | a throwing update callback leaves the feedback whole, whatever it has written, if and only if the stored feedback is not the preallocated message |
| `GoalProtocol.TornFeedback` | realtime_tools/include/realtime_tools/realtime_server_goal_handle.hpp:196-205 | a schedule in which the partial write of a throwing update callback is published |
| `GoalCalls.RequestsWereMade` | realtime_tools/include/realtime_tools/realtime_server_goal_handle.hpp:106-143 | in every run every request recorded and every terminal event delivered carries the kind and the result of a call that was made |
| `GoalCalls.SetTakesEffect` | realtime_tools/include/realtime_tools/realtime_server_goal_handle.hpp:106-143 | a set call past its check takes effect in every run, whatever others do before its lock and between its statements: its request comes next, and its flag is the only one up, with its result, until delivered |
| `GoalCalls.SetAlone` | realtime_tools/include/realtime_tools/realtime_server_goal_handle.hpp:106-143 | setAborted, setCanceled and setSucceeded raise exactly their own flag, with their result, if and only if the goal was told to execute and no flag is up |
| `GoalCalls.ExecuteAlone` | realtime_tools/include/realtime_tools/realtime_server_goal_handle.hpp:207-215 | execute raises its flag, if and only if no request is up |
| `GoalCalls.RunAlone` | realtime_tools/include/realtime_tools/realtime_server_goal_handle.hpp:219-252 | an uninterrupted runNonRealtime executes an accepted goal, then ends it by the request that is up and that its state allows, or else, with none up, publishes the feedback of an executing goal |
| `GoalCalls.FeedbackComesFromCalls` | realtime_tools/include/realtime_tools/realtime_server_goal_handle.hpp:174-205 | in every run the feedback last set is the argument of the last setFeedback or trySetFeedback that completed, null included |
| `GoalCalls.SetFeedbackAlone` | realtime_tools/include/realtime_tools/realtime_server_goal_handle.hpp:174-182 | setFeedback makes its argument what will be published, nothing if it is null, and returns false and does nothing without the lock |
| `GoalCalls.TrySetFeedbackAlone` | realtime_tools/include/realtime_tools/realtime_server_goal_handle.hpp:196-205 | trySetFeedback makes what its callback wrote last what will be published |
| `RealtimeServerGoalHandle.GoalHandle.Schedule` | realtime_tools/include/realtime_tools/realtime_server_goal_handle.hpp:106-252 | any schedule performed on the object keeps the invariant and is a run of the protocol |
| `BufferProtocol.NewestIsLastWrite` | realtime_tools/include/realtime_tools/realtime_buffer.hpp:113-154 | in every run the object that new_data_available_ selects holds the last completed write |
| `BufferProtocol.ReadsFollowWrites` | realtime_tools/include/realtime_tools/realtime_buffer.hpp:113-138 | a realtime read that got the lock returns the last write; one that did not repeats the read before it; realtime reads never go back in write order; a non-realtime read returns the last write |
| `BufferProtocol.ReturnedObjectIsStable` | realtime_tools/include/realtime_tools/realtime_buffer.hpp:113-154 | no write changes the object last returned to the realtime reader, in any run up to its next read |
| `BufferProtocol.ReadAlone` | realtime_tools/include/realtime_tools/realtime_buffer.hpp:113-127 | an uninterrupted readFromRT is its statements in a row and keeps the invariant |
| `BufferProtocol.LostReadRepeats` | realtime_tools/include/realtime_tools/realtime_buffer.hpp:113-127 | a realtime read without the lock returns what the read before it returned and changes nothing |
| `BufferProtocol.PeekAlone` | realtime_tools/include/realtime_tools/realtime_buffer.hpp:129-138 | an uninterrupted readFromNonRT returns the last write and changes nothing |
| `RealtimeBuffer.Buffer.ReadFromRT` | realtime_tools/include/realtime_tools/realtime_buffer.hpp:113-127 | an uninterrupted read returns the newest value and swaps only when there is one |
| `RealtimeBuffer.Buffer.ReadFromNonRT` | realtime_tools/include/realtime_tools/realtime_buffer.hpp:129-138 | returns the object holding the last write |
| `RealtimeBuffer.Buffer.WriteFromNonRT` | realtime_tools/include/realtime_tools/realtime_buffer.hpp:140-154 | the newest value becomes the one written and the realtime object is untouched |
| `RealtimeBuffer.Buffer.Assign` | realtime_tools/include/realtime_tools/realtime_buffer.hpp:88-111 | copying makes the newest value that of the source, which keeps its own; self-assignment changes nothing |
| `RealtimeBuffer.Buffer.InitRT` | realtime_tools/include/realtime_tools/realtime_buffer.hpp:156-160 | both objects hold the value afterwards and the flag is as before |
| `RealtimeBuffer.Buffer.Reset` | realtime_tools/include/realtime_tools/realtime_buffer.hpp:162-175 | both objects are new and blank and the flag is as before |
| `RealtimeBuffer.Buffer.Schedule` | realtime_tools/include/realtime_tools/realtime_buffer.hpp:113-154 | any schedule performed on the object keeps the two cells distinct and is a run of the protocol |
| `QueueProtocol.Conservation` | realtime_tools/include/realtime_tools/lock_free_queue.hpp:176-235 | in every run removed elements in removal order followed by the contents are the accepted pushes in order, and the capacity is respected |
| `QueueProtocol.SingleProducerSucceeds` | realtime_tools/include/realtime_tools/lock_free_queue.hpp:214-223 | with one producer and any consumers bounded_push always returns true |
| `QueueProtocol.FailureNeedsAnotherPush` | realtime_tools/include/realtime_tools/lock_free_queue.hpp:214-223 | bounded_push returns false exactly when the queue is full at its second push, which needs another push accepted since its pop, and then leaves nothing behind |
| `QueueProtocol.TwoProducersCanFail` | realtime_tools/include/realtime_tools/lock_free_queue.hpp:214-223 | for every capacity and any two producers some run of theirs has a bounded_push that returns false |
| `QueueProtocol.SucceedsIffSingleProducer` | realtime_tools/include/realtime_tools/lock_free_queue.hpp:214-223 | bounded_push returns true in every run, with any consumers, if and only if there is at most one producer |
| `QueueProtocol.BoundedPushAlone` | realtime_tools/include/realtime_tools/lock_free_queue.hpp:214-223 | an uninterrupted bounded_push drops the oldest element of a full queue, appends its own and returns true |
| `QueueProtocol.BoundedPushesKeepNewest` | realtime_tools/include/realtime_tools/lock_free_queue.hpp:214-223 | n bounded pushes alone leave the newest min(n + present, capacity) elements in order |
| `QueueProtocol.SingleOperations` | realtime_tools/include/realtime_tools/lock_free_queue.hpp:154-235 | push appends if there is room, pop takes the oldest element, get_latest takes all, and a thread inside bounded_push does only that |
| `LockFreeQueue.Queue.Push` | realtime_tools/include/realtime_tools/lock_free_queue.hpp:176-183 | appends and returns true exactly when the queue is not full |
| `LockFreeQueue.Queue.Pop` | realtime_tools/include/realtime_tools/lock_free_queue.hpp:154-154 | removes and returns the oldest element, if any |
| `LockFreeQueue.Queue.GetLatest` | realtime_tools/include/realtime_tools/lock_free_queue.hpp:232-235 | empties the queue and returns the newest element, if any |
| `LockFreeQueue.Queue.BoundedPush` | realtime_tools/include/realtime_tools/lock_free_queue.hpp:214-223 | the uninterrupted push, pop and second push end with room made and true returned |
| `LockFreeQueue.Queue.PushAll` | realtime_tools/include/realtime_tools/lock_free_queue.hpp:214-223 | a loop of bounded pushes leaves the newest elements |
| `LockFreeQueue.Queue.Schedule` | realtime_tools/include/realtime_tools/lock_free_queue.hpp:154-235 | any schedule performed on the object keeps the invariant and is a run of the protocol |
| `BoxProtocol.NoDeadlock` | realtime_tools/include/realtime_tools/realtime_thread_safe_box.hpp:88-129 | if every assignment goes strictly down some ranking of the boxes, then in every run, while any thread is inside a call, some thread can perform its next statement |
| `BoxProtocol.SomeoneIsReady` | realtime_tools/include/realtime_tools/realtime_thread_safe_box.hpp:91-95 | following the holders of the wanted locks down the ranking reaches a thread that can move |
| `BoxProtocol.CrossedForever` | realtime_tools/include/realtime_tools/realtime_thread_safe_box.hpp:93-94 | two opposite assignments that have each locked their source are blocked for good |
| `BoxProtocol.CycleCanBlock` | realtime_tools/include/realtime_tools/realtime_thread_safe_box.hpp:93-94 | two or more boxes, each assigned to the next and the last to the first, reach a deadlock in some run of just these assignments |
| `BoxProtocol.RingCanBlock` | realtime_tools/include/realtime_tools/realtime_thread_safe_box.hpp:93-94 | so do any boxes each assigned to one of the same boxes |
| `BoxProtocol.OppositeAssignmentsCanBlock` | realtime_tools/include/realtime_tools/realtime_thread_safe_box.hpp:93-94 | in particular two opposite assignments between any two boxes |
| `BoxProtocol.RankedIsUntangled` | realtime_tools/include/realtime_tools/realtime_thread_safe_box.hpp:88-129 | under a ranking no group of threads waits for locks held inside the group, whatever other threads do |
| `BoxProtocol.DeadlockFreeIffRanked` | realtime_tools/include/realtime_tools/realtime_thread_safe_box.hpp:88-129 | for every set of (source, target) pairs: in no run whose assignments are among them, with any threads and any puts and gets, do threads wait for each other, if and only if the pairs can be ranked, source above target, if and only if there is no ring among them; and likewise for deadlocks of all threads |
| `BoxProtocol.DeadlockIsForever` | realtime_tools/include/realtime_tools/realtime_thread_safe_box.hpp:93-94 | no call under way at a deadlock ever ends |
| `BoxProtocol.TransferIsFaithful` | realtime_tools/include/realtime_tools/realtime_thread_safe_box.hpp:93-96 | a transfer happens with both locks held and stores in the target what the source has held since it was locked |
| `BoxProtocol.HeldBoxIsStable` | realtime_tools/include/realtime_tools/realtime_thread_safe_box.hpp:93-97 | nobody else changes a box while a thread holds its lock |
| `BoxProtocol.ReadyMoves` | realtime_tools/include/realtime_tools/realtime_thread_safe_box.hpp:93-97 | each statement of a thread that is not blocked brings its call nearer the end |
| `BoxRegister.BoxesAreRegisters` | realtime_tools/include/realtime_tools/realtime_thread_safe_box.hpp:88-283 | in every run a box holds the argument of the last put to it, or what the last assignment into or out of it left, or its initial value, all taken from the calls |
| `BoxRegister.GetsReadRegisters` | realtime_tools/include/realtime_tools/realtime_thread_safe_box.hpp:158-260 | in every run every get and try_get returns that content of its box |
| `BoxRegister.CallsAreServed` | realtime_tools/include/realtime_tools/realtime_thread_safe_box.hpp:88-283 | in every run every thread inside a call serves the call it made, with its arguments |
| `BoxRegister.PutLands` | realtime_tools/include/realtime_tools/realtime_thread_safe_box.hpp:137-204 | a put changes its box and no other, and the box holds its argument until the unlock, whatever other threads do |
| `BoxRegister.AccessAlone` | realtime_tools/include/realtime_tools/realtime_thread_safe_box.hpp:198-272 | an uninterrupted set stores its argument and nothing else, and get returns what its box holds |
| `BoxRegister.TryAlone` | realtime_tools/include/realtime_tools/realtime_thread_safe_box.hpp:137-175 | try_set and try_get do the same when they lock the mutex and nothing when they do not |
| `BoxRegister.AssignAlone` | realtime_tools/include/realtime_tools/realtime_thread_safe_box.hpp:88-129 | an uninterrupted assignment gives the target the source's value; a moved-from source is left with an arbitrary one |
| `RealtimeThreadSafeBox.Boxes.Schedule` | realtime_tools/include/realtime_tools/realtime_thread_safe_box.hpp:88-283 | any schedule performed on the objects keeps the invariant and is a run of the protocol |

## Left out

- Initialization and parameters: `init`, `validate`, node parameters and `is_initialized`; handlers start initialized with valid parameters.
- Return value of a trigger call: the read of `async_callback_return_` at the end of `trigger_async_callback` has no effect on other threads and is not modelled; the lock a refused trigger still holds while reading it is.
- `pause_execution` under SYNCHRONIZED: a store of `pause_thread_`, which nothing reads under this policy, followed by the modelled wait call.
- Wait calls under DETACHED: `trigger_in_progress_` is never set there, so they return at once; that flag and `cycle_end_condition_` are not part of the DETACHED model.
- Execution time statistics, getters, thread priority, affinity, names, logging and the string form of the scheduling policy.
- Floating point: the overrun count is the exact rational ceiling, without rounding and without the narrowing to `int`.
- Stop and reset from several threads at once: `reset_variables` clears the stop flag and can undo a concurrent `stop_thread`; one control thread is assumed.
- Several realtime threads on one goal handle: the flag checks precede the lock, so exclusion of the flags is claimed for one realtime caller only.
- Null goal results and the contents of goal messages inside the external action library.
- `initRT`, `reset` and copying of a buffer while other threads use it: they take no lock or dereference after unlocking, and are modelled as sequential calls.
- Queue container internals: transient failures of a push on a queue that is not full, and `bounded_push` on a single-producer single-consumer queue from two threads.
- `set` and `get` of a box with a callback: a callback that takes the lock of another box nests locks as an assignment does, and is outside the pairs of `BoxProtocol.DeadlockFreeIffRanked`.
- Boxes with recursive mutexes, and direct use of a box's or the publisher's mutex by the caller.
- Box construction from another box: it locks only the source and behaves like a `get`.
