# A verified model of kaiu

kaiu is a small asynchronous runtime: promises, promise streams, a parallel event loop, pipelines of streams
over thread pools, and a decimal big number that gives them work. This project models its state machines and
protocols in Dafny and proves what they are for. `dafny verify dfyconfig.toml` checks everything.

The build modelled is the DEBUG build, with the guards of `SAFE_PROMISES` and `SAFE_PROMISE_STREAMS`. A guard
that throws is an explicit outcome; what an object looks like after one has thrown is promised nowhere.

| file | component |
|---|---|
| `StreamSpec.dfy`, `StreamRuns.dfy` | a promise stream as one value, its operations, and the theorems over all runs |
| `StreamReplay.dfy` | what the calls of a run leave a stream with: its action, its result, its data |
| `PromiseStream.dfy` | the stream object: setters that re-run the state machine, the re-entrant drain |
| `TaskStream.dfy`, `TaskStreamRuns.dfy` | the two-stream pipeline of `task_stream` under any schedule; what it passes on in both directions |
| `PromiseSpec.dfy`, `PromiseRuns.dfy` | promises as a heap of cells, its meaning, the theorems over all runs |
| `PromiseGuards.dfy`, `PromiseErrors.dfy` | exactly when a guard throws, and when an error escapes |
| `PromiseOrder.dfy`, `PromiseFinally.dfy` | the order of calls on different promises; `then` with a finalizer against `finally` |
| `PromiseState.dfy` | the promise object: phases, callbacks, `then` and `forward_to` |
| `CallbackPack.dfy`, `PromiseChain.dfy` | callback packs, `>>=` and `/`; what they are on the heap of promises |
| `Combine.dfy` | the combinator's shared state under any interleaving |
| `EventLoop.dfy`, `LockMany.dfy` | workers, counter, starter pistol and `join`; the back-off lock of many mutexes |
| `EventLoopRuns.dfy`, `EventLoopRest.dfy` | what users of the loop see of a run; how it comes to rest |
| `ParallelEventLoop.dfy`, `ConcurrentQueue.dfy`, `ScopedCounter.dfy` | the event loop as an object, and the queue and the counter it is made of |
| `DecimalValue.dfy`, `Decimal.dfy`, `DecimalParallel.dfy`, `DecimalText.dfy` | digit vectors and their values; the number object; parallel product; text |

How the parts are modelled:

* Objects whose methods assign fields (streams, promises, the combinator's state, event loop, queue, counter,
  decimal) are classes with those fields. Streams, promises, the combinator and the event loop are proved,
  method by method, to take exactly the step of a specification on values, and the theorems are about runs of
  that specification.
* Threads are transition systems: every action is one step under one mutex, and a run is any sequence of
  enabled actions. A blocking wait is an action that is not enabled.
* A stream consumer is a function from its state object and a datum to a new state object and a reply: nothing
  yet, an action, or a failure. That covers synchronous and asynchronous consumers, with and without state.
* A promise callback throws, returns a settled promise, or returns a promise that exists already. The pair of
  closures given to a promise is one `Callback` value. A promise whose callbacks are running still holds its
  mutex, so settling or binding it again from inside is a deadlock, which counts with the guards.
* A stream holds its accepted, handed-over and discarded data as histories; a promise heap holds what was
  given, what was bound and in which order cells settled.
* Digits are signed 8-bit characters, and every intermediate of digit arithmetic is checked to fit.

## Where code and documentation differ

The model follows the code.

* A consumer failure after the producer's result does not override that result, as promise_stream.md line 67
  says: the guard at promise_stream.cpp lines 120-124 throws. `StreamRuns.LateFailureThrows` is such a run,
  `StreamRuns.ThrowsExactly` the exact condition.
* A failed consumer call does not go on to process data (promise_stream.tcc lines 184-195), so the stream settles
  only with the next write: `StreamRuns.ProgressExactly`, `StreamRuns.FailureWaitsForWrite`, and as a run
  `StreamRuns.FailureStalls`.
* A producer's rejection asks for a stop, but the answer of a consumer call in flight replaces the request:
  `StreamRuns.AnswerOverwritesStop`, and as a run `StreamRuns.StopOverwritten`.
* A promise may be resolved twice, or rejected twice, until something is bound to it; the second value wins
  (promise.cpp lines 87-96): `PromiseRuns.SettledTwice`.
* The finalizer of `then` runs when the callback returns, not when the promise that it returned settles. So
  the two forms that promise.md lines 396-397 calls equivalent differ while that promise is pending: in the
  order of calls always (`PromiseFinally.FinalizerTiming`), in the outcome exactly if the finalizer throws
  (`PromiseFinally.OutcomesAgree`). `PromiseFinally.FormsDiffer` is a run of each form with different outcomes.
* The combination of no promises never settles: `Combine.SettledInTheEnd`.

## Model

| member | source | states |
|---|---|---|
| StreamSpec.StepInv | promise_stream.tcc:36-63 | every operation of a stream that does not throw keeps the invariant that ties flags, phase, buffer, histories and completions together |
| StreamSpec.DrainInv | promise_stream.tcc:203-251 | the re-entrant drain keeps the invariant and stops only when the consumer is in flight, has failed, or nothing is left |
| StreamSpec.HandOverSound | promise_stream.tcc:137-168 | a consumer call keeps the state object equal to the fold over everything handed over |
| StreamRuns.Conservation | promise_stream.tcc:212-251 | in every reachable stream accepted = handed over ++ (discarded or buffered); a running consumer means the buffer flag is unset; `streaming3` is never left behind; at most one completion, and only with a result, an empty buffer and no consumer running |
| StreamRuns.RunsMoveForward | promise_stream.cpp:23-93 | phases move only along the state graph, histories only grow, a result never changes, and after Discard, Stop or a failure no datum is ever handed over |
| StreamRuns.ProgressExactly | promise_stream.tcc:168-195 | a bound stream with a result is unsettled exactly while a consumer call is in flight or a failure has not been followed by a write |
| StreamRuns.FailureWaitsForWrite | promise_stream.tcc:184-195 | after a failure an operation settles the stream if and only if it is a write, and then with the failure's error and without feeding the consumer |
| StreamRuns.FailureDecides | promise_stream.cpp:112-129 | a failure is accepted exactly when there is no result yet, and then any run that settles the stream settles it with that error |
| StreamRuns.LateFailureThrows | promise_stream.cpp:120-124 | a run in which a failure after the producer's result throws |
| StreamRuns.FailureStalls | promise_stream.tcc:184-195 | a run with a result, a binding and nothing in flight that has not settled, and that a write settles |
| StreamRuns.AnswerOverwritesStop | promise_stream.tcc:272-277 | a producer's rejection asks for a stop, but after the answer of the call in flight the next datum is handed over if and only if that answer is Continue |
| StreamRuns.StopOverwritten | promise_stream.tcc:170-183 | a run in which a datum is handed over after the stop was asked for |
| StreamRuns.AnswerFeeds | promise_stream.tcc:170-183 | a running consumer gets the next buffered datum if and only if it answers Continue |
| StreamRuns.DrainThrows | promise_stream.tcc:197-201 | a drain throws if and only if it is allowed to feed, a result is there, and some consumer call on the buffer fails after asking for more each time before |
| StreamRuns.ThrowsExactly | promise_stream.cpp:100-129 | for every operation, on any consumer, the exact condition under which a guard throws |
| StreamRuns.StreamIsFold | promise_stream.tcc:65-94 | for every order of binding, writing, resolving and answering with a consumer that always continues: settled exactly if no call is in flight, with the producer's value, everything written handed over in order, and the state object equal to the left fold |
| StreamRuns.OrderDoesNotMatter | promise_stream.tcc:80-94 | two such runs with the same writes, binding and result settle alike |
| StreamReplay.StreamIsReplay | promise_stream.tcc:168-195 | in every run the action of a stream is the last that a call set (each answer of the consumer its own, each rejection and failure Stop), its result the first that was offered, with the offerer's kind, and its accepted and handed-over data what the calls say |
| StreamReplay.ActionAfterCall | promise_stream.cpp:183-193 | after an answer other than Continue the producer reads that answer, after a failure or a rejection Stop, after a resolution what it read before |
| StreamReplay.ActionAfterDrain | promise_stream.tcc:170-183 | consumer calls that reply at once are all answered Continue up to the last, and the stream is left with the action of the last reply |
| PromiseStream.PromiseStreamState.constructor | promise_stream/state_base.h:62-66 | a new stream object is the initial stream |
| PromiseStream.PromiseStreamState.SetState | promise_stream.cpp:23-57 | with its recursion, reaches the phase that the flags justify; callers prove that its transition guard never throws |
| PromiseStream.PromiseStreamState.UpdateState | promise_stream.cpp:59-93 | terminates, follows a path of the state graph to the phase the flags justify, and runs the completer on completion |
| PromiseStream.PromiseStreamState.SetStreamHasBeenWrittenTo | promise_stream.cpp:100-110 | throws exactly on a write after a producer's result, and otherwise opens the buffer and refreshes the phase |
| PromiseStream.PromiseStreamState.SetStreamResult | promise_stream.cpp:112-129 | stores the first result, ignores one after a consumer failure, throws on any other |
| PromiseStream.PromiseStreamState.SetBufferIsEmpty | promise_stream.cpp:131-139 | flags the buffer empty and refreshes the phase, once |
| PromiseStream.PromiseStreamState.SetConsumerIsRunning | promise_stream.cpp:141-151 | throws exactly if nothing would change; otherwise changes only that flag |
| PromiseStream.PromiseStreamState.TakeData | promise_stream.tcc:212-251 | yields the oldest datum exactly when the consumer should get it; otherwise leaves what a finished drain leaves |
| PromiseStream.PromiseStreamState.ProcessData | promise_stream.tcc:203-210 | takes the whole drain step of the specification, whatever the consumer answers, or throws with it |
| PromiseStream.PromiseStreamState.CallDataCallback | promise_stream.tcc:137-201 | one consumer call and all that follows from it is the drain step |
| PromiseStream.PromiseStreamState.OnAction | promise_stream.tcc:170-183 | an answer is the specification's answer step |
| PromiseStream.PromiseStreamState.OnFailure | promise_stream.tcc:184-195 | a failure is the specification's failure step, or throws if there is a result |
| PromiseStream.PromiseStreamState.DoResolve | promise_stream.tcc:266-270 | a resolution is the specification's |
| PromiseStream.PromiseStreamState.DoReject | promise_stream.tcc:272-277 | a rejection asks for a stop and is the specification's |
| PromiseStream.PromiseStreamState.Write | promise_stream.tcc:36-46 | exactly the specification's write, invariant kept |
| PromiseStream.PromiseStreamState.SetDataCallback | promise_stream.tcc:48-63 | exactly the specification's binding, invariant kept |
| PromiseStream.PromiseStreamState.Resolve | promise_stream.tcc:15-20 | exactly the specification's resolution, invariant kept |
| PromiseStream.PromiseStreamState.Reject | promise_stream.tcc:22-27 | exactly the specification's rejection, invariant kept |
| PromiseStream.PromiseStreamState.ConsumerDone | promise_stream.tcc:168-183 | exactly the specification's asynchronous answer, invariant kept |
| PromiseStream.PromiseStreamState.ConsumerFail | promise_stream.tcc:184-195 | exactly the specification's asynchronous failure, invariant kept |
| TaskStream.NextKeeps | task_stream.tcc:76-120 | every step of any thread keeps the pipeline invariant: the pending job is the upstream call in flight |
| TaskStream.PipelineOrder | task_stream.tcc:77-119 | under every schedule the downstream writes are a prefix of what upstream accepted, at most one result is passed on, and only after all accepted data was forwarded or discarded |
| TaskStream.NothingIsLost | task_stream.tcc:96-119 | once the upstream has a result and no job is pending, that result was passed on and downstream has one |
| TaskStream.PipelineIsFold | task_stream.tcc:65-124 | end to end: the downstream consumer was fed exactly the data written upstream, and its promise settled with the upstream value |
| TaskStreamRuns.EndsAreStreams | task_stream.tcc:77-119 | under every schedule both ends of a pipeline are runs of streams: upstream is called by the factory's producer and answered with the downstream actions read, downstream is written what upstream handed over, in order, and given its result |
| TaskStreamRuns.ActionGoesUpstream | task_stream.tcc:90 | a datum job answers upstream with the action that downstream had when the job read it, and upstream has that action then |
| TaskStreamRuns.StopReachesUpstream | task_stream.tcc:81-91 | once the downstream consumer has answered Discard or Stop or has failed, upstream hands over at most one more datum, and none while a job has yet to read the action |
| TaskStreamRuns.DownstreamGetsAll | task_stream.tcc:83-119 | downstream accepts what upstream handed over, in order, until its own consumer wants no more, and with no job pending it has the upstream result unless its consumer has failed |
| TaskStreamRuns.ProducerIsServed | task_stream.tcc:118-123 | in every run the upstream can be bound once, written to until the producer has given a result, and given one result, whatever the downstream consumer and the jobs do |
| TaskStreamRuns.JobsEnd | task_stream.tcc:79-119 | from every reachable state a bounded number of steps of the pool leaves no job, whatever happened before |
| PromiseSpec.OpenShrinks | promise.cpp:111-142 | each callback that runs closes one more promise, which is why a cascade ends |
| PromiseRuns.AssignPays | promise.tcc:74-80 | settling one promise in mid-cascade keeps the invariant up to the one callback now due |
| PromiseRuns.AttachPays | promise.cpp:64-78 | binding one promise in mid-cascade does the same |
| PromiseRuns.DeliverKeeps | promise.cpp:119-135 | a whole cascade restores the invariant |
| PromiseRuns.StepKeeps | promise.tcc:74-171 | every call from outside keeps the invariant of the heap |
| PromiseRuns.SettledDenotes | promise.tcc:139-168 | a settled promise has an outcome that the graph means |
| PromiseRuns.DenotedSettles | promise.tcc:139-168 | an outcome that the graph means is already there |
| PromiseRuns.MachineComputesMeaning | promise.tcc:82-171 | in every run, in any order of binding and settling, a promise has an outcome if and only if the graph means it |
| PromiseRuns.Confluence | promise.tcc:82-171 | two runs that bind the same graph and give the same outcomes agree on every promise |
| PromiseRuns.ThenLaw | promise.tcc:126-168 | the output of `then` settles exactly as next (iff resolved), handler (iff rejected) and finalizer decide, spelled out by cases: a finalizer's exception over both, a thrown error, a returned outcome, a returned promise followed |
| PromiseRuns.CalledOnce | promise.tcc:139-168 | each `then` calls exactly one of next and handler, once, then the finalizer, once, with nothing in between |
| PromiseRuns.FinalizerRunsOnReturn | promise.tcc:139-153 | when a callback has returned a promise, the finalizer of its `then` has run already; that of a `finally` bound to the output has run if and only if the returned promise has settled |
| PromiseRuns.SettledTwice | promise.cpp:87-96 | before binding, a second settlement of the same kind replaces the value and one of the other kind throws |
| PromiseGuards.GuardsExactly | promise.cpp:64-109 | as long as the promises that callbacks return exist, are not bound from outside and belong to one `then` each, a call meets a guard if and only if that call itself is a misuse: guards never fire inside a cascade |
| PromiseErrors.HeapIsTheRun | promise.tcc:74-80 | the promises, the outcomes given and the callbacks bound are those of the calls from outside, whatever cascades they set off |
| PromiseErrors.RunMeans | promise.tcc:82-171 | a promise has an outcome if and only if what the run has bound and given, in whatever order, means it |
| PromiseErrors.UncaughtExactly | promise.cpp:154-169 | a call throws an unhandled error if and only if the graph, with what the call adds, means a rejection for a promise that ends in a terminator; and it throws the error of such a promise |
| PromiseOrder.CallsStay | promise.tcc:126-168 | calls once made stay first in every longer run |
| PromiseOrder.CallsAreCausal | promise.tcc:82-171 | along every way that outcomes took, through callbacks, forwarding and returned promises, all calls of the first promise come before all calls of the last |
| PromiseFinally.OutcomesAgree | promise.tcc:130-168 | for any two runs, one of `then` with a finalizer and one of `then` followed by `finally`, on the same input: the outputs are in the same state if and only if the finalizer does not throw or no returned promise is pending; else the first is rejected and the second waits |
| PromiseFinally.FinalizerTiming | promise.tcc:139-153 | at any moment when the returned promise is pending, the first form's finalizer has run, straight after the callback; the second's runs if and only if that promise settles, after every call made until then |
| PromiseFinally.FinallyAfterCauses | promise.tcc:139-153 | inside a cascade too, everything called for the returned promise to settle comes before that `finally` |
| PromiseFinally.FormsDiffer | promise.tcc:141-153 | a run of each form on the same input, one output rejected and the other pending |
| PromiseState.Promise.constructor | promise.tcc:260-266 | a new promise is a pending, unbound cell |
| PromiseState.Promise.Resolve | promise.tcc:74-80 | on the heap of all promises, with all cascading callbacks, exactly the machine's settlement |
| PromiseState.Promise.Reject | promise.cpp:52-57 | the same for a rejection |
| PromiseState.Promise.SetState | promise.cpp:80-109 | the transition guard and the transition are the machine's settlement |
| PromiseState.Promise.UpdateState | promise.cpp:111-142 | runs the callbacks of a settled promise, and only then completes it |
| PromiseState.Promise.RunCallback | promise.tcc:82-94 | a forwarding or terminating callback has exactly the machine's effect |
| PromiseState.Promise.RunThen | promise.tcc:126-168 | the closures of `then` have exactly the machine's effect and trace |
| PromiseState.Promise.SetCallbacks | promise.cpp:64-78 | throws on a second binding and otherwise is the machine's attachment |
| PromiseState.Promise.Then | promise.tcc:104-171 | binds the callbacks to a new promise, exactly as a step of the machine |
| PromiseState.Promise.Connect | promise.tcc:82-94 | `forward_to` and `finish` are steps of the machine |
| CallbackPack.BindAssociates | promise/monad.h:53-68 | `bind` is associative in fate and calls, on promises resolved, rejected, pending and never settling, with callbacks that return any of these |
| CallbackPack.ChainMeaning | promise/monad.h:53-68 | a `>>=` chain of any length has the fate and the calls of the successive `then` calls, on all of these |
| CallbackPack.SlashIsFinally | promise/monad.h:43-45 | `pack / finalizer` is `then` followed by `finally` exactly if the callback returned a settled promise or the finalizer has no effect, and ends with the same outcome exactly if the returned promise ever settles or the finalizer does not throw |
| PromiseChain.ChainOnTheMachine | promise.tcc:104-171 | in every run, along promises bound one to the next with any callbacks, the last has the outcome, and the trace restricted to them is the calls in order, of the successive `then`s and of one `>>=` chain |
| Combine.CombineState.Next | promise.tcc:433-440 | stores a value unless an input has failed |
| Combine.CombineState.Handler | promise.tcc:441-451 | exactly the first failing input gets to reject |
| Combine.CombineState.Finalizer | promise.tcc:452-463 | the last input to finish gets to resolve, if none failed |
| Combine.CombineState.Proceed | promise.tcc:424-463 | the object takes exactly the turns that the theorems are about |
| Combine.Combined | promise.tcc:466-494 | under any schedule the object goes through the states of the model and calls the combined promise at most once |
| Combine.SettledAtMostOnce | promise.tcc:344-383 | under every interleaving the combined promise is settled at most once, resolved only if all inputs resolved and then with entry i from input i, rejected only with the winner's error |
| Combine.SettledInTheEnd | promise.tcc:422-494 | once all callbacks are through it is settled, with all values or with the winner's error; never for no inputs |
| Combine.WinnerIs | promise.tcc:441-451 | the error is that of the first failing input that the schedule runs |
| Combine.FirstInTheList | promise.tcc:484-494 | run in list order, it is that of the first rejected promise of the list |
| Combine.RejectsAtOnce | promise.tcc:441-451 | the first failing input rejects the combined promise with its second turn, neither earlier nor later |
| Combine.ThreeTurns | promise.tcc:422-463 | the callbacks of an input are through after at most three turns |
| Combine.NothingStoredAfterFailure | promise.tcc:433-440 | from the first failure on no value is stored |
| EventLoop.CounterCountsWorkers | event_loop.cpp:76-95 | in every reachable state the counter is the number of workers outside the guarded wait |
| EventLoop.PistolHoldsEveryone | starter_pistol.cpp:13-21 | nobody passes the pistol before every thread is ready, so the counter accounts for every worker once the loop is constructed |
| EventLoop.BrokeMeansWaiting | event_loop.cpp:157-174 | where `join` breaks, every worker is in the wait |
| EventLoop.JoinMeansQuiescence | event_loop.cpp:139-177 | where `join` breaks, all queues are empty, no worker can step, and every event pushed by anyone has finished |
| EventLoop.QuietStaysQuiet | event_loop.cpp:139-177 | it stays so until somebody outside pushes |
| EventLoop.EveryExceptionHandled | event_loop.cpp:108-116 | when `join` returns, the handler has had every exception exactly once, in the order stored |
| EventLoop.HandledInOrder | event_loop.cpp:108-116 | at any time the handled exceptions are a prefix of those thrown |
| EventLoop.NoDeadlock | event_loop.cpp:76-177 | the loop can take a step of its own, except exactly when it is quiet and nothing is being constructed or joined |
| EventLoopRuns.JoinReturns | event_loop.cpp:139-177 | in every run, when `join` has been called and has returned, at some moment in between all queues were empty, all workers waited and everything pushed had finished, and every exception thrown before it has been handled; if nobody pushed from outside meanwhile, that is so now |
| EventLoopRuns.WaitsWithNothingStored | event_loop.cpp:158-162 | when `join` begins to wait, every exception thrown so far has been handled |
| EventLoopRuns.FirstInFirstOut | event_loop.cpp:97-106 | for every pool, the events its workers have taken, in order, then its queue, are the events pushed to that pool, in order |
| EventLoopRuns.HistoriesAreTheRun | event_loop.cpp:76-106 | what the theorems call pushed, finished and thrown are the pushes, ends and errors of the run's actions |
| EventLoopRest.ComesToRest | event_loop.cpp:76-177 | every run can be continued, by the loop's own steps, to where everything pushed has finished, all workers wait and no join is in progress; and if one was, all exceptions have been handled |
| EventLoopRest.PushedIsRun | event_loop.cpp:76-177 | and from there an event pushed to any pool is run by a worker of that pool, after everything pushed to it before, and a `join` called then returns with nothing left over |
| ParallelEventLoop.ParallelEventLoop.Hire | event_loop.cpp:64-71 | for every pool exactly as many workers as asked for, and a pistol for all of them and the constructor |
| ParallelEventLoop.ParallelEventLoop.Create | event_loop.cpp:49-74 | throws exactly for a pool without workers, and otherwise builds a loop in the model's initial state with exactly the workers asked for in every pool |
| ParallelEventLoop.ParallelEventLoop.Work | event_loop.cpp:76-95 | each step of a worker that runs no event is the model's |
| ParallelEventLoop.ParallelEventLoop.Take | event_loop.cpp:118-137 | a worker that finds an event takes the front one of its pool |
| ParallelEventLoop.ParallelEventLoop.Guard | event_loop.cpp:118-137 | a worker that finds none leaves the count before it waits |
| ParallelEventLoop.ParallelEventLoop.Push | event_loop.cpp:97-106 | the model's push, at the back of the pool's queue |
| ParallelEventLoop.ParallelEventLoop.Throw | event_loop.cpp:85-93 | the model's end of an event that throws |
| ParallelEventLoop.ParallelEventLoop.ProcessException | event_loop.cpp:108-116 | hands over the oldest stored exception, or goes on |
| ParallelEventLoop.ParallelEventLoop.LockStep | event_loop.cpp:164-169 | a step of locking all queues, or the look at all of them, is the model's |
| ParallelEventLoop.ParallelEventLoop.MainStep | event_loop.cpp:139-177 | each step of the constructor and of `join` is the model's |
| LockMany.CircleIsModulo | lock_many.tcc:25-27 | the mutex tried next is (start + counter) % count |
| LockMany.AdvanceKeeps | lock_many.tcc:22-50 | each step keeps account of exactly the mutexes held, and touches nobody else's |
| LockMany.NoHoldAndWait | lock_many.tcc:11-51 | in every reachable state a blocked caller holds nothing and a finished one holds exactly what it asked for |
| LockMany.NoCycleOfWaiters | lock_many.tcc:11-51 | no reachable state of any number of callers has a cycle of waiters |
| LockMany.SomeoneCanStep | lock_many.tcc:11-51 | while a caller is left, somebody can step |
| LockMany.BlocksOnTheBusyOne | lock_many.tcc:33-36 | a caller blocks on the first mutex of its list at first, and then always on the one whose try failed last |
| LockMany.AloneFinishes | lock_many.tcc:22-51 | from every point of the protocol, a caller that nobody hinders holds all its mutexes after a bounded number of steps |
| ConcurrentQueue.ConcurrentQueue.Push | concurrent_queue.tcc:14-20 | appends; what was pushed is what was popped, then what is queued |
| ConcurrentQueue.ConcurrentQueue.Pop | concurrent_queue.tcc:44-73 | waits exactly if the queue is empty and waiting is allowed; otherwise takes the front or reports nothing |
| ScopedCounter.ScopedCounter.Adjust | scoped_counter.tcc:15-26 | changes the value, and notifies exactly on a change to zero |
| ScopedCounter.ScopedAdjustment.constructor | scoped_counter.tcc:56-62 | takes effect at once |
| ScopedCounter.ScopedAdjustment.Move | scoped_counter.tcc:70-82 | hands the duty over without touching the counter |
| ScopedCounter.ScopedAdjustment.Destroy | scoped_counter.tcc:64-68 | undoes the adjustment |
| ScopedCounter.CounterIsInitialPlusLive | scoped_counter.tcc:54-82 | however adjustments are made, moved and destroyed, the counter is off by exactly the live ones |
| ScopedCounter.Restored | scoped_counter.tcc:54-82 | once all are destroyed the counter is back |
| DecimalValue.SameDigitsSameValue | decimal.cpp:221-224 | on canonical numbers digit equality is value equality |
| DecimalValue.HigherDigitDecides | decimal.cpp:241-248 | the highest differing digit decides the order |
| DecimalValue.LongerIsLarger | decimal.cpp:236-240 | the longer of two canonical numbers is the larger |
| DecimalValue.NumeralCanonical | decimal.tcc:15-22 | every number has a canonical numeral with that value |
| DecimalValue.CanonicalIsNumeral | decimal.cpp:209-219 | and only one |
| DecimalValue.RowsFit | decimal.cpp:163-185 | no sum of rows of a product needs more digits than both factors have, so adding a row never carries out |
| Decimal.Decimal.FromInt | decimal.tcc:8-23 | throws exactly for negative values, otherwise the canonical number of that value |
| Decimal.Decimal.ToInt | decimal.tcc:25-37 | throws exactly if the value exceeds the maximum, no intermediate exceeds it, and otherwise the value |
| Decimal.Decimal.IntegerRoundTrip | decimal.tcc:8-37 | an integer that fits its type converts to a number and back unchanged, and any other throws |
| Decimal.Decimal.NumberRoundTrip | decimal.tcc:8-37 | a number converts to an integer and back to the same digits exactly if it does not exceed the maximum |
| Decimal.Decimal.RemoveLeadingZeros | decimal.cpp:209-219 | canonical form of the same value |
| Decimal.Decimal.AddAssign | decimal.cpp:85-108 | the exact sum, its exact length, canonical if the operands are, also for `a += a` |
| Decimal.Decimal.SubAssign | decimal.cpp:120-141 | throws if and only if the left value is smaller, and otherwise the canonical difference |
| Decimal.DigitProduct | decimal.cpp:175-177 | every intermediate of multiplication is at most 89 |
| Decimal.SumShape | decimal.cpp:94-106 | how many digits a sum has, and that it stays canonical |
| Decimal.Decimal.MultiplyRow | decimal.cpp:171-183 | the inner loop writes exactly the shifted product of one digit |
| Decimal.Decimal.AddRow | decimal.cpp:168-184 | the accumulator gains the row and keeps its length |
| Decimal.Decimal.MultiplyDigits | decimal.cpp:162-187 | the outer loop sums to the product |
| Decimal.Decimal.Times | decimal.cpp:153-188 | the canonical numeral of the product of the values |
| Decimal.Decimal.TimesAssign | decimal.cpp:190-195 | the same in place |
| Decimal.Decimal.Fact | decimal.cpp:197-207 | the countdown loop ends and yields the factorial |
| Decimal.Decimal.RelationTo | decimal.cpp:231-250 | the sign of the difference of the values |
| Decimal.Decimal.Equals | decimal.cpp:221-224 | equality of the values |
| DecimalParallel.RangesPartition | decimal.cpp:322-326 | every digit index is in the range of exactly one worker |
| DecimalParallel.PartialProduct | decimal.cpp:291-315 | a worker, reusing its row buffer, sums exactly the rows of its range |
| DecimalParallel.Accumulate | decimal.cpp:316-330 | the workers' sums, added in any order of completion, make the product |
| DecimalParallel.ParallelMultiply | decimal.cpp:272-333 | for any number of cores the digits of the serial product |
| DecimalText.Parse | decimal.cpp:16-31 | throws exactly on a character that is neither digit nor comma, and otherwise the canonical number the text stands for |
| DecimalText.Print | decimal.cpp:33-53 | the digits with a comma before every group of three, w + (w - 1) / 3 characters in all |
| DecimalText.DigitsInIs | decimal.cpp:39-45 | the last 4q + r characters hold 3q + r digits |
| DecimalText.CharactersMean | decimal.cpp:24-25 | the i-th character of 0123456789 stands for the digit i, and is printed for it |
| DecimalText.LegalCharacters | decimal.cpp:21-28 | a text is legal exactly if it consists of these ten characters and commas |
| DecimalText.CommasAt | decimal.cpp:39-43 | a comma stands exactly before each group of three counted from the right |
| DecimalText.TextExample | decimal.cpp:16-53 | 1234567 is printed as 1,234,567, and the text 0,,90 stands for 90 |
| DecimalText.TextRoundTrip | decimal.cpp:16-53 | parsing the printed text of a canonical number gives that number |
| DecimalText.PrintingNormalises | decimal.cpp:16-53 | printing a parsed text gives one canonical text of the same number, which prints to itself |
| DecimalText.SameTextSameValue | decimal.cpp:33-53 | two numbers print alike exactly if they are equal |

## Left out

- StreamRuns.StreamIsFold: only for consumers that always answer Continue and never fail, and producers that do not reject; what the other answers, failures and rejections do is in `Conservation`, `RunsMoveForward` and `ProgressExactly`.
- EventLoopRest.ComesToRest: that rest is always within reach, not that every fair schedule gets there; events that push or throw for ever never end.
- TaskStreamRuns.JobsEnd: that the jobs can always be run to their end, without assuming a scheduler; the downstream consumer's own calls may stay in flight.
- TaskStream.NextKeeps: an upstream or downstream call on which a guard would throw is not a move of the pipeline; the exceptions a task itself can meet are moves, and are proved not to happen.
- PromiseGuards.GuardsExactly: callbacks that may return a promise that is bound elsewhere or that another callback may return too are excluded, as such a promise may be taken by the time it is returned; the other theorems cover them.
- PromiseRuns.MachineComputesMeaning: about runs without a guard's exception or an unhandled rejection, in which every promise is settled from one side only, a `then` is bound to a pending output, and callbacks return promises but do not bind or settle any themselves.
- PromiseRuns.Confluence: the same runs; with two sides settling one promise the order does matter.
- PromiseChain.ChainOnTheMachine: the promises that `bind` makes inside its callbacks are not cells of the heap; the `>>=` chain is that of `CallbackPack`.
- Combine.CombineState.Next: the tuple and the vector versions have the same callbacks and are one class here.
- ConcurrentQueue.ConcurrentQueue.Pop: one hold of the mutex; a consumer that must wait calls it again, and what other threads do meanwhile is in `EventLoop`.
- Decimal.Decimal.SubAssign: nothing is said about the digits left behind when it throws.
- Decimal.Decimal.ToInt: the maximum is at least 9, which leaves out `bool`, for which there is another conversion.
- DecimalParallel.Accumulate: a worker's private sum is computed at the moment it takes the lock; it shares nothing before that.
- The interleavings of the event loop, of the lock of many mutexes, of the pipeline and of the combinator are transition systems on values, since what matters is every order of their steps. The event loop and the combinator are classes too, one method a step. The retry loop of `lock_many` need not end, so it has no terminating method, and the closures of the pipeline are steps only.
- Fairness of condition variables, spurious wake-ups and the shutdown through `set_nowaiting`.
- The pools of a pipeline: which queue a job goes through and which thread runs it is any schedule.
- The guard of `join` against calls from a worker, and of `push` against unknown pools.
- Shared ownership, self-references, deferred unlocking and move-only values: references are plain references.
- Thread identity and the choice of lock in consumer callbacks: every handler is one step under the lock.
- `AsyncPromiseStream`: it calls members that its base does not have.
- `SynchronousEventLoop`, `task`, promise factories, currying, tuple iteration, assertion tool, file system and timing: they would only add easy members.
- The operators `+`, `-`, `++`, `--`, `<` and the like of decimal numbers: copies and calls of the members above.
- What follows an unhandled rejection rethrown by a terminator.
- Release builds without the guards.
