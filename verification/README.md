# Vectro's stateful components, modelled and proved

This project models the components of Vectro whose behaviour depends on the order of events, and
proves what every step keeps and what every run ends in. Each component has two sides. A value model
gives its state, its atomic steps and its runs, with the theorems about them. A class updates the
component's fields in place, one method for each atomic step or handler; every method is proved to
perform exactly the step of the value model, and a `Perform` or `Handle` method performs whole runs, so
the theorems hold of the object. The step methods are reached through it and have no rows of their own
below.

| component | value model and theorems | class |
|---|---|---|
| task processor | `PoolModel`, `PoolCounting`, `PoolTasks`, `PoolOrder`, `PoolRoundRobin`, `PoolShutdown`, `PoolDrain`, `PoolSignal`, `PoolTokens`, `PoolMetrics`, `PoolWitness` | `TaskProcessor.TaskMultiProcessor` |
| log adapter | `LogModel`, `LogBatches` | `LogAdapters.LogAdapter` |
| scatter/gather write queue | `WriteQueue`, `WriteOutcomes` | `WriteQueues.WriteQueueSG` |
| session, direct write path | `SessionModel`, `SessionEvents` | `Sessions.Session` |
| line framer | `LineSplitting` | `LineFramers.SimpleLineFramer` |
| request correlation | `CorrelationModel`, `CorrelationOutcomes` | `TcpClients.TcpClient` |
| raw buffer | `OwnershipModel` | `RawBuffers.RawBuffer` |

`Sums` holds weighted sums over sequences: a global invariant over all threads is an equation between
such sums, and one step changes one summand.

## How the concurrent components are modelled

A state holds the shared memory, a program counter for every thread, and a history that no step reads.
An action is one atomic access, or a critical section nobody can observe half-way; mutexes have owners,
sleeping threads are woken by signals or spuriously. A run is any sequence of enabled actions, so a
theorem about reachable states covers every interleaving of any number of threads. The producer's
critical section around a queue is cut open, because the mark is updated in it by compare-and-swap and
workers poll other queues meanwhile. The atomics of type `size_t` wrap at 2^64 where wrapping can be
observed: the task counter, the round-robin index, the correlation ids and the pending counter.

Handlers of the write queue and of the session run one at a time on their executor, and a call they make
into the same object runs inline; an event therefore carries the calls its handler makes. What a handler
does when a send is rejected comes last in that send, so it is the same as the calls that follow it.

## Where the code departs from its documentation

The models follow the code. Each of these is stated as a theorem.

- The admission check of the task processor is not atomic with the push: with P producers up to
  `max_queue_size + P - 1` tasks are queued, and every configuration attains that bound; the limit itself
  is kept exactly with at most one producer.
- Its counter may wrap below zero, because a pop can precede the producer's increment. It reads above the
  number of live tasks exactly while more pushes are uncounted than tasks are queued or in a popper's
  hand, 2^64 - 1 for one such push; it is exact again once nobody is between the two.
- Its shutdown does not drain the queues: once `running_` is false only the workers already past their test
  of it pop once more. With the producers done, it is sure to leave empty queues exactly when, at that
  moment, every queue is empty or holds a single task and its own worker has yet to look into it. Every
  configuration has runs that end with the processor destroyed and any number of tasks, up to the
  breaker's limit, still queued.
- Its destructor stores and signals without the condition mutex. Once the producers are done, the signal
  can be lost exactly when a worker has tested `running_` and is about to wait, or is about to look at a
  counter that the workers already at a pop can bring down to zero. Then the destructor may hang for good;
  otherwise it always finishes. The log adapter signals under its lock and loses nothing.
- Round-robin dispatch is even for ever only when the number of threads divides 2^64.
- A force close of the write queue resets `writing_` while a write may be out: writes stay one at a time
  from then on exactly when none was out. Over a whole run they do exactly when every force close, and
  the continuation of every successful write, comes with nothing out.
- A failed write leaves `writing_` set. If it was the only write out, nothing more is written until a
  force close, which revives the queue. A graceful close has no effect on what is accepted or written.
- The session's error path sets its flag first, so the forced close it then asks for returns at once and
  the socket stays open, whatever closes come later: a finished session has left its socket open exactly
  when it was ended by a timeout, a failed write or a failed read. With a disconnect handler it has then
  told the handler, and never otherwise; without one it has done neither.
- The line framer loses its pending bytes when its buffer regrows: streaming equals splitting exactly
  when the unterminated rest before each chunk was at most 3072 bytes. An empty line makes it throw, and
  it throws again at every turn until the reserve of 1024 bytes is used up; the regrowth then discards the
  empty line together with everything else that was pending. Callers read at offset 0 although the framer
  takes the bytes behind `write_pos_`, which is right exactly while the stream read so far ends with a
  newline.
- A request with a null handler that is answered is never discounted from `pending_requests_`; the counter
  is exact at rest exactly when that has not happened.
- Making a raw buffer of size zero leaks the allocation: the allocator runs before the constructor throws.

## Model

| member | source | states |
|---|---|---|
| PoolCounting.StepKeepsInv | src/vectro/pool/task_multi_processor.h:235-340 | every step of every thread keeps lock ownership, the counter equation, wakefulness and the admission bound |
| PoolCounting.ReachableInv | src/vectro/pool/task_multi_processor.h:235-340 | these hold in every reachable state, for any numbers of producers and workers |
| PoolCounting.WorkMovesQueues | src/vectro/pool/task_multi_processor.h:291-315 | what leaves the queues is what a worker popped, one task at most per step |
| PoolCounting.SubmitMovesQueues | src/vectro/pool/task_multi_processor.h:263-265 | what enters the queues is what a producer pushed |
| PoolCounting.CheckKeepsAdmission | src/vectro/pool/task_multi_processor.h:236-243 | a producer that passes the breaker leaves room for every other admitted producer; a wrapped counter only causes drops |
| PoolCounting.NoLostWakeup | src/vectro/pool/task_multi_processor.h:263-290 | if a worker sleeps, or is about to after reading zero, while the counter is nonzero, some producer is between its push and the end of its signal |
| PoolCounting.SleepMeansNoWork | src/vectro/pool/task_multi_processor.h:263-290 | once no producer is in between, a sleeping worker means all queues are empty and no popped task is undiscounted |
| PoolCounting.CounterAccounting | src/vectro/pool/task_multi_processor.h:263-318 | the counter is queued minus uncounted pushes plus undiscounted pops modulo 2^64, exact when there are none of either, and wrapped exactly when the uncounted pushes exceed the rest |
| PoolCounting.AdmissionBound | src/vectro/pool/task_multi_processor.h:236-273 | queued tasks plus producers past the breaker never exceed max_queue_size + producers - 1 |
| PoolCounting.ConditionMutexExcludes | src/vectro/pool/task_multi_processor.h:274-290 | two workers, two producers, or a worker and a producer are never both inside critical sections of the condition mutex |
| PoolTasks.WorkMovesTask | src/vectro/pool/task_multi_processor.h:291-334 | a worker's step keeps the number of places in which a task is |
| PoolTasks.PushMovesTask | src/vectro/pool/task_multi_processor.h:263-265 | a push moves the task from the producer's hand into one queue |
| PoolTasks.PopMovesTask | src/vectro/pool/task_multi_processor.h:291-315 | a pop from either end moves the task from one queue into the worker's hand |
| PoolTasks.SubmitMovesTask | src/vectro/pool/task_multi_processor.h:235-278 | a producer's step keeps a task where it is, moves it to its queue or the drop log, or begins it |
| PoolTasks.StepKeepsInv | src/vectro/pool/task_multi_processor.h:176-340 | every step keeps conservation, promise accounting and pop tracking for every task at once |
| PoolTasks.Conservation | src/vectro/pool/task_multi_processor.h:235-334 | every submission that has begun is in exactly one place: refused, dropped, a producer's hand, a queue, a worker's hand, or done |
| PoolTasks.NoTaskPoppedTwice | src/vectro/pool/task_multi_processor.h:291-315 | in all three modes no two pops take the same task |
| PoolTasks.CallbacksOnce | src/vectro/pool/task_multi_processor.h:316-327 | the global callbacks see a task at most once, and never a dropped or refused one |
| PoolTasks.CallbacksBeforeFn | src/vectro/pool/task_multi_processor.h:319-333 | fn runs only after the global callbacks have seen the task |
| PoolTasks.PromiseMeaning | src/vectro/pool/task_multi_processor.h:176-215 | fn runs at most once; a value or its exception means it ran with both token checks clear; the cancellation error means exactly one check fired and fn never ran; unset means the task is still on its way or was dropped |
| PoolTokens.TokenAtBegin | src/vectro/pool/task_multi_processor.h:192-201 | at the submission a set token cancels the promise and enqueues nothing; with a clear one, or none, the submission is entered with an unset promise |
| PoolTokens.TokenAtWrap | src/vectro/pool/task_multi_processor.h:202-213 | before the execution a set token cancels the promise and fn is not started; with a clear one, or none, fn starts |
| PoolTokens.CancelledOnlyBySetToken | src/vectro/pool/task_multi_processor.h:192-215 | over any run a promise is cancelled only if its submission came with a token that the run sets |
| PoolTokens.TokenHoldsLastStored | src/vectro/pool/task_multi_processor.h:193-204 | over any run a token reads as what was last stored in it |
| PoolTasks.QueuedPromiseUnset | src/vectro/pool/task_multi_processor.h:111-138 | a task still queued, also after destruction, has its promise unset |
| PoolTasks.DroppedPromiseUnset | src/vectro/pool/task_multi_processor.h:238-243 | a dropped task's promise is never set |
| PoolTasks.ResolutionSucceeds | src/vectro/pool/task_multi_processor.h:181-187 | set_value and set_exception always find the promise unset |
| PoolTasks.ResolvedForGood | src/vectro/pool/task_multi_processor.h:176-215 | a resolved promise keeps its outcome in every continuation |
| PoolOrder.PopKeepsOrder | src/vectro/pool/task_multi_processor.h:291-315 | a pop from either end keeps all queues in push order, all earlier front pops older than what remains, and the theft count |
| PoolOrder.FifoOrder | src/vectro/pool/task_multi_processor.h:260-327 | in FIFO mode with any number of threads worker 0 pops everything, popped then queued is the push order, and the global callbacks see a prefix of it |
| PoolOrder.OldestFirst | src/vectro/pool/task_multi_processor.h:291-315 | whatever is taken from a queue after an owner's pop, from either end, was pushed later |
| PoolOrder.OwnerTakesOldest | src/vectro/pool/task_multi_processor.h:292-300 | an owner takes the front of its own queue, the oldest there, and leaves everything else as it was |
| PoolOrder.ThiefTakesNewest | src/vectro/pool/task_multi_processor.h:302-315 | a thief takes the back of its victim's queue, the newest there, counts it, and leaves everything else as it was |
| PoolOrder.EmptyQueueSteals | src/vectro/pool/task_multi_processor.h:302 | a worker that finds its own queue empty goes stealing exactly in work-stealing mode, and has no task |
| PoolOrder.QueueInPushOrder | src/vectro/pool/task_multi_processor.h:263-315 | every queue is strictly increasing in push order, and stolen_count_ is the number of back pops |
| PoolOrder.MarkMonotone | src/vectro/pool/task_multi_processor.h:266-271 | the high-water mark never falls |
| PoolOrder.PeakIsLongestSeen | src/vectro/pool/task_multi_processor.h:263-272 | the greatest length at a push is the greatest length of any queue in any state of the run |
| PoolOrder.MarkIsHistoricalMaximum | src/vectro/pool/task_multi_processor.h:263-272 | the mark is at least the length of every unlocked queue, never above the longest queue of the run, and equal to it once no queue mutex is held |
| PoolRoundRobin.ChosenIsShare | src/vectro/pool/task_multi_processor.h:260-262 | before the index wraps, queue i has been chosen exactly floor((k - i + n - 1) / n) times in k draws |
| PoolRoundRobin.EvenDistribution | src/vectro/pool/task_multi_processor.h:239-265 | in every reachable state with at most 2^64 draws each queue has its share, any two differ by at most one, and draws are pushes plus tasks about to be pushed |
| PoolRoundRobin.FifoDrawsNothing | src/vectro/pool/task_multi_processor.h:260-262 | in FIFO mode the shared index is never advanced |
| PoolRoundRobin.BalancedForeverIff | src/vectro/pool/task_multi_processor.h:260-262 | every reachable state of a configuration has any two queues drawn equally often up to one, if and only if the thread count divides 2^64 |
| PoolRoundRobin.IndexBalancedIff | src/vectro/pool/task_multi_processor.h:260-262 | the wrapped index modulo the threads is fair after any number of draws if and only if the thread count divides 2^64 |
| PoolRoundRobin.UnbalancedAfterTwoTurns | src/vectro/pool/task_multi_processor.h:260-262 | otherwise two turns of the index suffice to unbalance them |
| PoolShutdown.BoundedWorkAfterStop | src/vectro/pool/task_multi_processor.h:111-138 | after running_ is cleared, in any continuation, only workers that were past their test of it and not yet at a pop pop once more; of the queued tasks all but that many stay queued |
| PoolDrain.SurelyDrainedIff | src/vectro/pool/task_multi_processor.h:111-138 | with idle producers and no submissions, every run of the destructor that ends leaves empty queues if and only if, when it clears running_, no queue holds more than its own worker is sure to take: one task if the worker is past its test and has not looked into its queue, or is stealing and alone; else none |
| PoolDrain.ExposedLeavesBacklog | src/vectro/pool/task_multi_processor.h:280-340 | otherwise a run exists that ends destroyed with tasks queued |
| PoolShutdown.FinalCallbackLast | src/vectro/pool/task_multi_processor.h:122-137 | the final callback runs only when active_workers_ is zero and every worker has left |
| PoolShutdown.StoppedMeans | src/vectro/pool/task_multi_processor.h:337-339 | stopped_ is set exactly if some worker has left |
| PoolSignal.SignalReachesAll | src/vectro/pool/task_multi_processor.h:112-114 | if any worker sleeps after the destructor's signal, one was between its test and its wait at the signal |
| PoolSignal.SignalMissed | src/vectro/pool/task_multi_processor.h:284-290 | with producers in any state, a worker about to wait, or about to look at a counter no greater than the tasks popped and not yet discounted, can sleep after the signal |
| PoolSignal.ShutdownSignalLostIff | src/vectro/pool/task_multi_processor.h:112-114 | with idle producers a worker can sleep after the signal if and only if at the signal one is about to wait, or about to look at the counter while the workers already at a pop can empty the queues; the mode decides whose queues they can empty |
| PoolSignal.ShutdownProgress | src/vectro/pool/task_multi_processor.h:280-340 | without such a window, in every state after the signal each step of a worker brings the workers nearer to their end, and some worker can step while one is left |
| PoolSignal.DestructorFinishesIff | src/vectro/pool/task_multi_processor.h:111-138 | with idle producers, the destructor can finish from every state after its signal, without new submissions or spurious wakeups, if and only if there is no such window |
| PoolSignal.LostWorkerHangsDestructor | src/vectro/pool/task_multi_processor.h:122-130 | that worker sleeps on and the destructor never gets past joining, as long as no producer acts and it does not wake by itself |
| PoolSignal.ShutdownSignalCanBeLost | src/vectro/pool/task_multi_processor.h:112-114 | every configuration has a run in which the signal is lost |
| PoolMetrics.MetricsAccounting | src/vectro/pool/task_multi_processor.h:217-232 | processed_count_ is the pops less those not yet counted, queues and pops make up the pushes, and every drop is in the drop counter or was handed to exactly one reader |
| PoolMetrics.DropsHandedOver | src/vectro/pool/task_multi_processor.h:342-351 | after a worker has handled the drops none is left in the counter and every drop so far was handed to a reader |
| PoolMetrics.ProcessedAtTheEnd | src/vectro/pool/task_multi_processor.h:316-339 | once all workers have left, exactly the popped tasks were processed and the rest of the pushed are still queued |
| PoolWitness.AdmissionBoundAttained | src/vectro/pool/task_multi_processor.h:236-273 | every configuration with a breaker has a run that attains the admission bound |
| PoolWitness.LimitKeptIff | src/vectro/pool/task_multi_processor.h:236-273 | with a breaker and a limit, the queued tasks of a configuration never exceed the limit if and only if it has at most one producer |
| PoolWitness.CounterCanWrap | src/vectro/pool/task_multi_processor.h:273-317 | every configuration has a run in which the queues are empty and the counter reads 2^64 - 1 |
| PoolWitness.DestroyedWithBacklog | src/vectro/pool/task_multi_processor.h:111-138 | every configuration has, for every backlog up to the breaker's limit, a run that ends destroyed with that many tasks queued and all their promises unset |
| PoolWitness.AnyNumberOfDraws | src/vectro/pool/task_multi_processor.h:235-340 | every number of index draws is reached, by submissions served one after the other |
| TaskProcessor.DefaultStealPolicy | src/vectro/pool/task_multi_processor.h:362-365 | the first index of a greatest size, always a valid queue index for at least one thread |
| TaskProcessor.TaskMultiProcessor.GetDroppedCount | src/vectro/pool/task_multi_processor.h:221-223 | returns the drop counter and leaves zero |
| TaskProcessor.TaskMultiProcessor.Perform | src/vectro/pool/task_multi_processor.h:235-340 | performs any schedule exactly and keeps all global invariants |
| LogModel.StepKeepsInv | src/vectro/log/log_adapter.h:154-241 | every step keeps lock ownership, message order, wakefulness, sizes and drop accounting |
| LogModel.LogOrder | src/vectro/log/log_adapter.h:185-222 | dispatched, then the rest of the batch, then the queue is the append sequence in every reachable state |
| LogModel.LogDrain | src/vectro/log/log_adapter.h:67-73 | once stopped, everything appended before running_ was cleared, and before the final swap, has been dispatched in order, and exactly what came later remains |
| LogModel.LogNoLostWakeup | src/vectro/log/log_adapter.h:209-217 | a sleeping worker means running, and an empty queue or a producer that still owes its signal |
| LogModel.LogBound | src/vectro/log/log_adapter.h:162-185 | the queue never exceeds the limit, for any number of producers, and all drops are accounted for |
| LogBatches.SwapTakesAll | src/vectro/log/log_adapter.h:209-218 | the worker's critical section empties the queue into its batch, or sleeps while running, or leaves |
| LogBatches.FinalSwapTakesAll | src/vectro/log/log_adapter.h:223-228 | the last swap takes all that is left |
| LogBatches.QueueIsSinceSwap | src/vectro/log/log_adapter.h:185-228 | over any run the queue holds as many messages as were appended since the worker's last swap |
| LogBatches.DroppedIff | src/vectro/log/log_adapter.h:157-186 | over any run a look at the size, the first or the one under the lock, drops exactly if the limit was reached by messages appended since the last swap; otherwise the message passes, or goes to the end of the queue |
| LogModel.LogConservation | src/vectro/log/log_adapter.h:154-231 | as often as a message was logged it was dropped, is in hand, dispatched, in the batch or queued |
| LogBatches.EveryLoggedMessage | src/vectro/log/log_adapter.h:146-231 | as often as the calls of a run log a message it was dropped, is in hand, dispatched, in the batch or queued |
| LogBatches.DropsHandedOver | src/vectro/log/log_adapter.h:267-282 | after a batch no drop is left in the counter and every drop so far was handed to a reader |
| LogBatches.JoinsIffStopped | src/vectro/log/log_adapter.h:75-87 | the destructor joins the worker exactly if it has stopped by the end of the wait, and detaches it otherwise |
| LogBatches.JoinedMeansStopped | src/vectro/log/log_adapter.h:82-87 | a joined worker has stopped with nothing in hand |
| LogModel.LogMarkIsMaximum | src/vectro/log/log_adapter.h:186-191 | the mark never exceeds the longest queue of the run and equals it while the lock is free |
| LogModel.LogShutdownProgress | src/vectro/log/log_adapter.h:205-241 | after the stop, without producers, the worker can always move and each of its moves brings it nearer to its end |
| LogAdapters.LogAdapter.GetDroppedCount | src/vectro/log/log_adapter.h:117-119 | returns the drop counter and leaves zero |
| LogAdapters.LogAdapter.Perform | src/vectro/log/log_adapter.h:154-241 | performs any schedule exactly |
| WriteQueue.WriteOrder | src/vectro/stream/write_queue_sg.h:83-140 | in every run, force closes included, the writes are an in-order selection of the accepted sends, and not writing implies an empty queue |
| WriteQueue.HandlerFiresOnce | src/vectro/stream/write_queue_sg.h:83-140 | each send is in exactly one place and written at most once; its handler fires at most once, exactly when the send was rejected or its write completed |
| WriteOutcomes.HandlersAreTold | src/vectro/stream/write_queue_sg.h:87-138 | over any run a handler is told true exactly if its write completed without error, and false exactly if it completed with one or the send was rejected |
| WriteOutcomes.SendRejectedIff | src/vectro/stream/write_queue_sg.h:87-94 | a send is rejected, and its handler told false, exactly if the limit is on and reached; otherwise it goes behind all that wait and is written at once if idle |
| WriteOutcomes.QueueWithinLimit | src/vectro/stream/write_queue_sg.h:76-92 | in a run that never switches the limit off no more than max_queue_size entries wait |
| WriteOutcomes.LimitSwitches | src/vectro/stream/write_queue_sg.h:76-80 | EnableMaxQueue sets the switch and nothing else |
| WriteOutcomes.EverySendIsSomewhere | src/vectro/stream/write_queue_sg.h:83-140 | every send that the events of a run perform, handlers included, is rejected, waiting, with the stream, completed or discarded, and only one of them |
| WriteOutcomes.NextIsWritten | src/vectro/stream/write_queue_sg.h:134-135 | a successful write is followed by the front of what waits when its handler returns, or the queue goes idle |
| WriteOutcomes.NothingWaitsAfter | src/vectro/stream/write_queue_sg.h:102-138 | after a force close or a failed write nothing waits |
| WriteQueue.GracefulRuns | src/vectro/stream/write_queue_sg.h:100-140 | without a force close the writes are a prefix of the accepted sends, one at a time, and everything is written when nothing is out and no write failed |
| WriteQueue.NothingWrittenAfterError | src/vectro/stream/write_queue_sg.h:134-138 | in a run without any force close, after a failed write nothing more is written, and writing_ stays set |
| WriteQueue.SilentIff | src/vectro/stream/write_queue_sg.h:93-138 | no continuation without a force close writes anything if and only if writing_ is set and nothing is out |
| WriteQueue.FailureSilencesIff | src/vectro/stream/write_queue_sg.h:131-138 | in any state, earlier force closes included, a failed write silences the queue in that sense if and only if it was the only one out and writing_ was set |
| WriteQueue.ForceCloseRevives | src/vectro/stream/write_queue_sg.h:102-107 | a force close ends the silence: the next send is written unless the limit is on and zero |
| WriteQueue.NeverTwoOutIff | src/vectro/stream/write_queue_sg.h:83-140 | two writes never come to be out without a force close if and only if at most one is out now, and writing_ is set if one is |
| WriteQueue.ForceCloseSafeIff | src/vectro/stream/write_queue_sg.h:102-107 | from any state, after a force close at most one write is out in every continuation without another one, if and only if none was out at the close |
| WriteQueue.SafeThroughoutIff | src/vectro/stream/write_queue_sg.h:83-140 | over any run with any number of force closes, by callers or inside handlers, every state is safe in that sense if and only if each force close came with nothing out and no handler of a successful write left anything out |
| WriteQueue.SafeFromStartIff | src/vectro/stream/write_queue_sg.h:71-73 | the same for the runs of a fresh queue |
| WriteQueue.GracefulCloseIsInvisible | src/vectro/stream/write_queue_sg.h:108-122 | erasing all graceful closes from a run, those inside handlers too, leaves writes, handlers and queue as they were |
| WriteQueues.WriteQueueSG.Handle | src/vectro/stream/write_queue_sg.h:83-140 | performs any event exactly |
| SessionModel.DirectWritesInOrder | src/vectro/session.h:83-209 | in every run the direct path writes an in-order selection of the accepted messages one at a time, and is empty when idle |
| SessionEvents.SendIsQueued | src/vectro/session.h:83-85 | a framed send is handed to the stream at once if no write is in progress and goes to the end of the deque otherwise |
| SessionEvents.EverySendIsAccepted | src/vectro/session.h:64-90 | a run accepts exactly as many messages as its events, handlers included, perform framed sends |
| SessionEvents.NextIsWritten | src/vectro/session.h:188-204 | a completed write is followed by the front of the deque, or by none, which completes a graceful close |
| SessionEvents.AlwaysReading | src/vectro/session.h:130-164 | a running session has exactly one read out, so data are followed by the next read |
| SessionEvents.CloseTakesEffect | src/vectro/session.h:93-121 | a forced close closes the socket and empties the deque at once; a graceful one does so exactly if no write is in progress, and waits otherwise |
| SessionEvents.FailureEnds | src/vectro/session.h:212-227 | a failure ends a running session with nothing waiting, the framer gone and the disconnect handler told once |
| SessionModel.ClosedXorReported | src/vectro/session.h:93-226 | the disconnect handler runs at most once, exactly on the error path and if there is one; with or without one, the socket of a session that is shutting down is open exactly on the error path |
| SessionModel.LeftOpenIff | src/vectro/session.h:136-227 | an event ends a running session and leaves its socket open if and only if it is a timeout, a failed write or a failed read |
| SessionModel.SocketLeftOpenIff | src/vectro/session.h:93-227 | over any run, a finished session has its socket open if and only if the event that ended it was such a failure |
| SessionModel.NeitherClosedNorTold | src/vectro/session.h:177-227 | a run without a disconnect handler, an idle timeout and then a forced close by the user, that neither closes nor tells |
| SessionModel.NothingStartsAfterShutdown | src/vectro/session.h:130-141 | after the shutdown flag is set no read starts, the socket keeps its state and nothing more is reported |
| SessionModel.GracefulCloseIsPending | src/vectro/session.h:107-118 | a graceful close that has not taken effect waits for a write that is in progress |
| SessionModel.GracefulDrain | src/vectro/session.h:83-209 | without error, timeout or forced close no message is lost, the session closes only by itself, and every message accepted before that was written in order |
| SessionEvents.PeacefulRunWritesAll | src/vectro/session.h:64-209 | in a run without error, timeout or forced close, once no write is out as many messages have been written as framed sends were performed |
| Sessions.Session.Handle | src/vectro/session.h:64-227 | performs any event exactly |
| LineSplitting.JoinSplit | src/vectro/frame/simple_line_framer.h:11-12 | joining the lines and the tail with newlines gives back the stream, and no part contains a newline |
| LineSplitting.SplitJoin | src/vectro/frame/simple_line_framer.h:11-12 | splitting a join gives back the parts, so the decomposition is unique |
| LineSplitting.SplitAppend | src/vectro/frame/simple_line_framer.h:79-82 | splitting may resume from the retained tail |
| LineSplitting.BytesAccounted | src/vectro/frame/simple_line_framer.h:28-88 | every byte fed is in a line, a newline, pending, or discarded by a regrowth |
| LineSplitting.FaithfulWhileNothingLost | src/vectro/frame/simple_line_framer.h:28-88 | while nothing was discarded, the lines emitted over all chunks and the retained tail are the split of the whole stream |
| LineSplitting.StreamingIsSplittingIff | src/vectro/frame/simple_line_framer.h:28-88 | streaming equals splitting the whole stream if and only if before every chunk the unterminated rest of the stream left 1024 of 4096 bytes free |
| LineSplitting.NothingLostIff | src/vectro/frame/simple_line_framer.h:30-43 | no byte is discarded under that same condition only, and every regrowth discards some |
| LineSplitting.LossExample | src/vectro/frame/simple_line_framer.h:30-43 | an accepted chunking that loses bytes: 3073 bytes without a newline, then one more |
| LineSplitting.ChunkingIndependence | src/vectro/frame/simple_line_framer.h:28-88 | two chunkings of a stream that are both accepted, with short rests throughout, emit the same lines and retain the same tail |
| LineSplitting.AcceptsIffNoEmptyLine | src/vectro/frame/simple_line_framer.h:53-66 | when every chunk fits with 1024 bytes free, the framer accepts the stream if and only if it has no empty line, and then splits it |
| LineSplitting.ThrowsAgainIff | src/vectro/frame/simple_line_framer.h:28-88 | after a throw the next turn, PrepareRead included, throws again if and only if the reserve is still free or the new bytes have an empty line of their own |
| LineSplitting.BlockedWhileRoom | src/vectro/frame/simple_line_framer.h:28-88 | for chunks without an empty line of their own, a framer that holds an empty line throws at every turn if and only if the reserve is free before each, all bytes kept |
| LineSplitting.RecoveryExample | src/vectro/frame/simple_line_framer.h:28-66 | an input on which a framer throws and then recovers: an empty line and 3072 more bytes |
| LineSplitting.RegrowthStep | src/vectro/frame/simple_line_framer.h:28-45 | PrepareRead leaves 1024 bytes free; a regrown buffer has the pending number plus 4096 bytes and starts empty, which adds between 3073 and 4096 bytes; pending bytes are kept exactly without a regrowth or if there are none |
| LineSplitting.CapacityGrowth | src/vectro/frame/simple_line_framer.h:28-45 | after g regrowths the capacity is between 4096 + 3073 g and 4096 (g + 1), and at least 3073 g (g + 1) / 2 bytes were discarded, hence received |
| LineSplitting.StoringAtZeroWorksIff | src/vectro/tcp/tcp_client.h:222-224 | storing at offset 0 gives the framer the stream for every chunk if and only if nothing is pending |
| LineSplitting.NextAtZeroWorksIff | src/vectro/tcp/tcp_client.h:222-235 | after any run of a client that stores at offset 0 and has been right so far, the next turn is right for every chunk if and only if the stream so far ends with a newline or is empty |
| LineSplitting.AlignedRunWorks | src/vectro/tcp/tcp_client.h:222-235 | such a client splits every stream whose chunks end with their lines |
| LineFramers.SimpleLineFramer.PrepareRead | src/vectro/frame/simple_line_framer.h:28-45 | regrows exactly when fewer than 1024 bytes are free, and then starts empty |
| LineFramers.SimpleLineFramer.OnData | src/vectro/frame/simple_line_framer.h:47-88 | the scan, the compaction and the position implement the split of the buffered bytes, or the throw at an empty line |
| LineFramers.SimpleLineFramer.MoveToFront | src/vectro/frame/simple_line_framer.h:80-82 | moving the tail to the front in place copies it correctly although the ranges may overlap |
| LineFramers.SimpleLineFramer.FeedAll | src/vectro/frame/simple_line_framer.h:28-88 | a fresh framer fed chunk by chunk emits the lines of the value model |
| CorrelationModel.StepKeepsInv | src/vectro/tcp/tcp_client.h:140-254 | every step of requesters, timers and reader keeps ids, the one place of each handler, and the counter equation |
| CorrelationModel.StepKeepsAccounted | src/vectro/tcp/tcp_client.h:148-249 | the counter is map entries plus removed but not discounted minus inserted but not counted, plus answered null handlers, modulo 2^64 |
| CorrelationModel.ResponseXorTimeout | src/vectro/tcp/tcp_client.h:153-254 | a request's handler is called at most once, by the response or by the timeout |
| CorrelationOutcomes.SettledAsRemoved | src/vectro/tcp/tcp_client.h:153-254 | over any run a settled request was settled as timed out exactly if its own timer removed its entry, as answered exactly if a response did, and never as timed out while its timer has not fired |
| CorrelationOutcomes.AnswerCalls | src/vectro/tcp/tcp_client.h:236-253 | a response to a pending request calls its handler with the response and not the message handler; with a null handler it goes to the message handler |
| CorrelationOutcomes.TimeoutCalls | src/vectro/tcp/tcp_client.h:153-167 | a timer that finds its entry calls the handler with the timeout and removes just that entry |
| CorrelationOutcomes.InsertedIsPending | src/vectro/tcp/tcp_client.h:142-147 | a request is pending under its own id from its insertion on |
| CorrelationOutcomes.RunsDraw | src/vectro/tcp/tcp_client.h:140-147 | a run makes as many requests as it draws ids, with the handlers given |
| CorrelationModel.SettledOnceTimerFired | src/vectro/tcp/tcp_client.h:153-168 | once its timer has finished a request is settled exactly once and its handler, unless null, has been called exactly once, or the reader is just about to |
| CorrelationModel.UniqueIds | src/vectro/tcp/tcp_client.h:142 | ids are unique and nonzero, and 0 is never pending |
| CorrelationModel.ResponseFindsItsRequest | src/vectro/tcp/tcp_client.h:236-254 | an answer settles the request that drew its id if that is pending, else it is an ordinary message |
| CorrelationModel.CounterAtRest | src/vectro/tcp/tcp_client.h:148-249 | at rest the counter is the map's size plus the null handlers that were answered, modulo 2^64 |
| CorrelationModel.CounterExactIff | src/vectro/tcp/tcp_client.h:248-253 | at rest the counter is the map's size if and only if no null handler was answered |
| CorrelationModel.AtMostTheRequests | src/vectro/tcp/tcp_client.h:140-254 | pending and settled requests together are no more than the requests made |
| CorrelationModel.BatchIsRun | src/vectro/tcp/tcp_client.h:235-254 | handling a batch of messages is a run of the reader |
| CorrelationModel.DuplicateAnswerUnmatched | src/vectro/tcp/tcp_client.h:236-254 | a repeated answer is an ordinary message and settles nothing |
| TcpClients.TcpClient.Perform | src/vectro/tcp/tcp_client.h:140-254 | performs any schedule of requesters, timers and reader exactly and keeps the invariant |
| TcpClients.TcpClient.OnMessages | src/vectro/tcp/tcp_client.h:235-254 | the loop handles the messages of a batch in order |
| OwnershipModel.StepKeepsLinearIff | src/vectro/frame/raw_buffer.cc:6-73 | every operation keeps ownership linear, and construction from a raw pointer does if and only if it throws or the pointer is nobody else's |
| OwnershipModel.LinearThroughoutIff | src/vectro/frame/raw_buffer.cc:6-73 | over any run ownership is linear throughout if and only if every pointer handed to the constructor was nobody else's then |
| OwnershipModel.NoDoubleDelete | src/vectro/frame/raw_buffer.cc:28-73 | no allocation is deleted twice or held after deletion or by two buffers, and each is deleted with its own size and deleter |
| OwnershipModel.ValidIffOwner | src/vectro/frame/raw_buffer.cc:51-53 | valid() holds exactly of the buffers that own an allocation, and a buffer without data is empty |
| OwnershipModel.AllReturned | src/vectro/frame/raw_buffer.cc:28-30 | once every buffer is destroyed, every allocation a buffer took has been deleted exactly once |
| OwnershipModel.LostIffMadeEmpty | src/vectro/frame/raw_buffer.cc:6-26 | an allocation obtained through Make is lost if and only if zero bytes were asked for |
| OwnershipModel.UnfairAdoptionDeletesTwice | src/vectro/frame/raw_buffer.cc:21-30 | handing over a pointer another buffer holds, then destroying both, deletes it twice |
| OwnershipModel.MoveTransfers | src/vectro/frame/raw_buffer.cc:36-42 | move assignment hands over exactly what the source held, empties the source, deletes what the target held, touches no other buffer; self-assignment changes nothing |
| OwnershipModel.MoveConstructTransfers | src/vectro/frame/raw_buffer.cc:32-34 | move construction gives a new buffer exactly what the source held and leaves the source empty |
| OwnershipModel.ResetDeletes | src/vectro/frame/raw_buffer.cc:28-62 | resetting or destroying a buffer deletes what it held, once, on its own terms, and touches no other buffer |
| OwnershipModel.MakeGives | src/vectro/frame/raw_buffer.cc:6-26 | Make gives a new buffer owning a fresh allocation exactly if nothing is missing and the size is not zero; the allocation is made regardless of the size |
| RawBuffers.RawBuffer.Make | src/vectro/frame/raw_buffer.cc:6-17 | each error in its order, and the allocation that precedes the size check |
| RawBuffers.RawBuffer.Construct | src/vectro/frame/raw_buffer.cc:21-26 | throws exactly on a null pointer, a zero size or a null deleter |
| RawBuffers.RawBuffer.MoveAssign | src/vectro/frame/raw_buffer.cc:36-42 | releases, then takes over; nothing on self-assignment |
| RawBuffers.RawBuffer.Reset | src/vectro/frame/raw_buffer.cc:55-62 | calls the deleter exactly when data and deleter are present, and leaves the buffer empty |
| RawBuffers.Program.Perform | src/vectro/frame/raw_buffer.cc:6-73 | performs any run of makes, moves, resets and destructions exactly |

## Left out

- PoolCounting.CounterAccounting: a push is enabled only if live tasks stay below 2^64 (a live task occupies memory), so a queue never has more elements than its size type counts.
- PoolTasks.DroppedPromiseUnset: nobody sets the promise of a dropped or left-over task, but when the wrapper that holds it is destroyed the standard library stores a broken-promise error in the future; that is not modelled.
- PoolDrain.SurelyDrainedIff: speaks of the runs in which the destructor ends; whether it ends is the matter of DestructorFinishesIff. It assumes idle producers for the same reason as the next line.
- PoolSignal.ShutdownSignalLostIff: assumes that no producer is inside a submission at the signal or begins one later, since a processor must not be used while it is destroyed; SignalReachesAll and SignalMissed hold with busy producers.
- The sizes a thief reads without locks are not modelled; the victim is any valid index, which covers every policy that returns one.
- The callbacks are opaque, all of them are one step, and their exceptions are swallowed as in the code.
- CorrelationModel.ResponseXorTimeout: assumes that fewer than 2^64 requests are made, so no id is used twice.
- SessionModel.GracefulDrain: completion of outstanding writes is up to the stream; the theorem says what holds in every state, not that writes complete.
- OwnershipModel.NoDoubleDelete: an allocator never returns a pointer that is still in use; reuse of a freed address counts as a new allocation.
- Weak memory effects: all atomics are sequentially consistent here.
- Real time: backoff, jitter, sleeps, the rate limit of drop notifications, SubmitWithTimeout's deadline test; the destructor's wait for a drained counter is a stutter.
- A task processor without threads, thread affinity, UpdateConfig and other reconfiguration during a run.
- A worker's pop is one step, since only the holder of the queue mutex could tell.
- The processed, stolen, dropped and mark counters are unbounded; each needs 2^64 events to wrap.
- The log adapter's callback registration, its initial null callback list, formatting, and what a detached worker does after the object is gone.
- The session's write-queue mode (it delegates to the write queue), interceptors and framing, which are one bit of a send, and the null framer a send meets after a shutdown.
- Read and idle timers are events that may come at any time; that asio cancels pending waits when an expiry is changed is not used.
- Message contents and metadata; in particular how a received message comes by its correlation id.
- Connecting, handshakes, TLS, acceptors, servers, channels, controllers, session managers and plugins.
