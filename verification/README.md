# The asynchronous executor of the TOS C++ SDK, modelled in Dafny

The SDK sends each request through a pipeline object.  A pipeline may be entered by several
threads at once (a client submits while the transport already completes), calls itself again to
retry, delivers one user callback, cleans up once, and then goes back to a pool for the next
request.  Longer operations chain pipelines with a coordinator.  Its guarantees rest on invariants
over all runs; this project states and proves them.

- `CompletionGate` - the gate of one generation as an object, and every history of it.
- `Lifecycle`, `LifecycleInvariant`, `LifecycleSteps`, `LifecycleRuns`, `LifecycleTheorems`,
  `LifecycleLiveness` - one pipeline object as a machine: every critical section is one step, every
  thread a stack of calls, attempts are outstanding until the transport completes them or the
  sender throws.  The theorems quantify over all runs, and `LifecycleChoices` says what those
  include.  Each generation of an object has its own
  `Config`, which says what its transport may do beyond its contract; a theorem without a
  condition on it holds for all, and where one needs it, it is proved to hold exactly under it.
- `PipelinePool` - the bounded cache as an object, and all threads and exceptions around it.
- `Generations` - an object between its reset and the first call of its next generation.
- `Ownership` - the pool's machine with a lifecycle machine for every object in it.
  `OwnershipLimits` embeds the failing runs of one object there: its conditions are exact.
- `Backoff`, `ResponseSink`, `ShapeGuard`, `JsonBody`, `Decorators` - what happens to one attempt:
  the retry decision, the receive buffer, the parse limits, the request body, the decorator chain
  and the finalizers.
- `StageGraph` - the coordinator's builder as a compiler from scripts to graphs of stages, its run
  as an interpreter, and the proof that the compiled graph means the script.  `Coordinator` is the
  same as mutable objects, tied method by method to the graph.
- `ForkJoin` - mapReduce with its separate push and decrement.
- `Reporting`, `ParallelStage`, `Composition` - a coordinator whose steps are lifecycle machines:
  one for an ordinary step, one for each runner of a mapReduce stage, each on a new object or on
  one that the pool hands out again.  `ReplacedWorks` serves to say what is delivered when a
  reducer depends on the order of arrival.
- `Wrappers` - the option type.
- `Dispatch` - append routing and file status with the bucket type cache, the latter run through
  the objects of `Coordinator`.
- `TokenBucket` - the rate limiter.

Conventions.  Clocks, allocation failures, the verdict of `checkShouldRetry` and the service's
answers are parameters.  A throwing call is a choice of the machine or an `Err` value.  The
transport contract is that of the SDK's sender: it throws without keeping its callbacks, or calls
the finish function once, after its last data callback, inline or from another thread.

Findings.

- The safety of retries needs more than the gate: a transport hook that calls `callbackError`, or
  a sender that throws after completion, lets the finalizers start under an outstanding retry.
  `enableReadFromFile` and `enableWrite2File` have such hooks.  With a hook, but not with a late
  throw, the next request on the same object can then stay without its cleanup.  That half is
  about users of the public `ProcessingPipline` interface who reuse such an object: in the SDK's
  own client GetObjectToFile and PutObjectFromFile are not pooled (`TosAsyncClient.cpp:40-46`) and
  no operation calls these two functions.
- A legacy JSON response without a Content-Length callback works under the length that an earlier
  attempt announced.
- The shift guard of the backoff is a second limit: no run makes more than 64 attempts.  For scale
  zero it gives up although the send time would fit.
- A failed HEAD of the bucket reaches the caller as itself in `appendObjectAsync` and
  `getBucketTypeAsync`, but as "pipeline stopped on error" in `getFileStatusAsync`.

## Model

| member | source | states |
|---|---|---|
| `CompletionGate.CompletionState.Enter` | sdk/include/executor/ProcessingPipline.h:183-188 | a scope is admitted exactly while the cleanup is unclaimed, and is then counted; nothing else changes |
| `CompletionGate.CompletionState.Leave` | sdk/include/executor/ProcessingPipline.h:189-194 | the last scope to leave claims the cleanup exactly when a finish is pending and nobody claimed it before |
| `CompletionGate.CompletionState.ClaimCallback` | sdk/include/executor/ProcessingPipline.h:199-204 | the callback is handed out to one claimant, and to none after the cleanup was claimed |
| `CompletionGate.CompletionState.RequestFinish` | sdk/include/executor/ProcessingPipline.h:205-208 | only marks the finish as pending: the cleanup itself is left to the last scope |
| `CompletionGate.ReplayKeepsConsistent` | sdk/include/executor/ProcessingPipline.h:182-216 | over any disciplined history: claimed cleanup means no open scope and a pending finish, and the flags count the hand-outs exactly; from then on the callback is not handed out any more |
| `CompletionGate.CleanupClaimedAtMostOnce` | sdk/include/executor/ProcessingPipline.h:182-238 | in every history of one gate at most one leave claims the cleanup and at most one claim gets the callback; after the cleanup no scope is open, no enter succeeds and neither is handed out again |
| `CompletionGate.Drive` | sdk/include/executor/ProcessingPipline.h:182-238 | the object itself, driven by any such history, hands out cleanup and callback as often as the history says, so at most once each |
| `LifecycleSteps.StepKeepsInv` | sdk/include/executor/ProcessingPipline.h:1156-1306 | every atomic step of every thread, nested, inline or on another thread, under any settings of any generation, keeps the counting invariant: gate and scopes agree, attempts and retries of a generation are one token, somebody is bound to claim the callback, and, as far as no hook of an earlier generation is left, to request the finish |
| `LifecycleSteps.RunKeepsInv` | sdk/include/executor/ProcessingPipline.h:1156-1306 | so does every run of any length, under any settings |
| `LifecycleTheorems.SafetyExactlyWhenTame` | sdk/include/executor/ProcessingPipline.h:1156-1306 | over all runs through any generations: at most one attempt is outstanding, of the current generation, and no cleanup begins under it - if and only if each generation has retries off, or no transport hook that calls callbackError and no sender that throws after its completion |
| `LifecycleRuns.FailingHookIsUnsafe` | sdk/include/executor/ProcessingPipline.h:1071-1084 | in any generation with retries and such a hook there is a run in which the finalizers start while an attempt of that generation is outstanding |
| `LifecycleRuns.LateThrowIsUnsafe` | sdk/include/executor/ProcessingPipline.h:1156-1171 | likewise with a sender that throws although its attempt was already completed and retried |
| `LifecycleRuns.OldHookLeavesUncleaned` | sdk/include/executor/ProcessingPipline.h:1071-1084 | and then a hook of the old attempt can claim the callback of the next generation, whose run comes to rest with its finalizers never called |
| `LifecycleTheorems.QuietMeansDone` | sdk/include/executor/ProcessingPipline.h:1156-1306 | under any settings: after asyncExecute was called, whenever no call is running and nothing is outstanding, the callback has run exactly once in every generation; the finalizers have run exactly once too and the object has been given away, in the first generation always, and later if no generation has both retries and hooks that call callbackError |
| `LifecycleTheorems.QuiescenceExactlyWhenOrderly` | sdk/include/executor/ProcessingPipline.h:1156-1306 | that last condition is exact: all runs that come to rest are cleaned up if and only if no generation has both retries and such hooks; late throws do no harm here |
| `LifecycleLiveness.OwnStepFalls` | sdk/include/executor/ProcessingPipline.h:1156-1306 | under any settings every step that a thread or the transport takes by itself lowers a measure, retries included |
| `LifecycleLiveness.EveryRunComesToRest` | sdk/include/executor/ProcessingPipline.h:1156-1306 | so, left to itself, every run ends within its measure, whichever threads move; and it can go on exactly as long as something is running or outstanding |
| `LifecycleLiveness.EveryCallIsAnswered` | sdk/include/executor/ProcessingPipline.h:1156-1306 | a client that has called asyncExecute gets its callback exactly once in every schedule that goes on while it can |
| `LifecycleTheorems.AtMostOnceAndBounded` | sdk/include/executor/ProcessingPipline.h:1086-1136 | in every reachable state under any settings: no callback or cleanup of a generation has run twice, at most one attempt of the current generation is outstanding, and run_count is at most max_retry_count + 1, or 1 for a non-positive limit |
| `LifecycleChoices.AttemptsAreExactlyBounded` | sdk/include/executor/ProcessingPipline.h:1104-1113 | that bound is attained: under any settings, in any generation exactly the numbers of attempts up to it occur in some reachable state, even if every attempt is completed inline and retried from within its own send |
| `LifecycleChoices.ResponseChoices` | sdk/include/executor/ProcessingPipline.h:1225-1291 | a response may be delivered, may make the decoder throw, and may be retried exactly while run_count has not passed max_retry_count |
| `LifecycleChoices.AttemptChoices` | sdk/include/executor/ProcessingPipline.h:1173-1223 | an attempt may fail before it is sent, by exception or local error, or be sent; each counts in run_count, and only a sent one is outstanding |
| `LifecycleChoices.SenderChoices` | sdk/include/executor/ProcessingPipline.h:1156-1170 | when a sender may return or throw, and that throwing takes its own outstanding attempt back |
| `LifecycleChoices.TransportChoices` | sdk/include/executor/ProcessingPipline.h:1293-1305 | any outstanding attempt may be completed at once, on any idle thread or inline in any send, unless a hook of it is running; late finish calls and hooks that report errors come in exactly when allowed |
| `LifecycleChoices.UserMayCallBack` | sdk/include/executor/ProcessingPipline.h:1310-1323 | user code may call the pipeline again, both ways, whenever the callback or a finalizer other than the pool's runs |
| `LifecycleChoices.FinalizersRunInTurn` | sdk/include/executor/ProcessingPipline.h:1387-1408 | the last scope to leave after a requested finish has every finalizer of its generation to run, one by one, and the last gives the object away |
| `LifecycleChoices.OwnerChoices` | sdk/include/executor/ProcessingPipline.h:694-704 | exactly an object in use that was not executed can be executed, exactly a cached one is handed out again, in a generation with a fresh gate and no attempts, or lost to a throwing reset |
| `LifecycleTheorems.TouchesOnlyItsGeneration` | sdk/include/executor/ProcessingPipline.h:218-238 | under any settings: whoever is inside the gate or runs finalizers does so with the gate that the object holds now, and the object is neither cached nor destroyed |
| `LifecycleTheorems.FinalizersRunAlone` | sdk/include/executor/ProcessingPipline.h:1400-1408 | under any settings: while a finalizer runs no call of any thread is inside the gate, the callback has been called and has returned, and no other thread cleans up |
| `LifecycleTheorems.ClosedForever` | sdk/include/executor/ProcessingPipline.h:694-704 | a generation that is closed stays closed through recycling and reuse: no call that captured its gate is admitted ever again |
| `LifecycleTheorems.LateCallDoesNothing` | sdk/include/executor/ProcessingPipline.h:1294-1305 | a finish function of a closed generation, called once more, leaves the whole state as it was |
| `PipelinePool.BoundedPipelinePool.Acquire` | sdk/src/TosAsyncClient.cpp:190-210 | pops the newest cached object into a new generation without a hook, or makes a new one; if the reset throws the popped object is deleted and its deletion counted |
| `PipelinePool.BoundedPipelinePool.Recycle` | sdk/src/TosAsyncClient.cpp:212-231 | caches the object while there is room, else (or if clearing or storing throws) deletes it and counts that; the cache never exceeds 64 and never holds an object twice |
| `PipelinePool.StepKeepsInv` | sdk/src/TosAsyncClient.cpp:180-284 | each step of each thread, and an exception at each place that can throw, keeps all objects accounted for |
| `PipelinePool.NoObjectInTwoPlaces` | sdk/src/TosAsyncClient.cpp:186-262 | in every interleaving: nothing is cached twice, or cached and in use, or with two threads; everything cached or in use exists; the cache holds at most 64; counted creations are destructions plus counted live objects |
| `PipelinePool.CountersMatchLiveObjects` | sdk/src/TosAsyncClient.cpp:240-268 | whenever no acquire or recycle is under way, creations minus destructions is the number of live objects, each of them cached or in use |
| `PipelinePool.EveryPlaceMayThrow` | sdk/src/TosAsyncClient.cpp:186-262 | where an exception can strike, and that the object the thread held is then gone, with creation and destruction both counted, and nothing else is touched |
| `PipelinePool.UndisturbedAcquire` | sdk/src/TosAsyncClient.cpp:190-210 | in the machine an acquire that runs through hands out the newest cached object and leaves everything else as it was |
| `PipelinePool.UndisturbedRecycle` | sdk/src/TosAsyncClient.cpp:212-231 | and a recycle that runs through caches the object while there are fewer than 64, and otherwise deletes it and counts that |
| `Generations.UnstartedStays` | sdk/include/executor/ProcessingPipline.h:694-704 | between reset and the first call of a new generation, if no earlier generation of the object had both retries and hooks that call callbackError, only calls of earlier generations go on: none passes the new gate, which stays as it was made, and nothing of the generation becomes outstanding |
| `Ownership.NextKeepsInv` | sdk/src/TosAsyncClient.cpp:186-284 | every step of every object and of every pool thread, and every exception, keeps place and life of each object in agreement, whatever the settings of the objects and of their generations |
| `Ownership.TouchedObjectsAreInUse` | sdk/src/TosAsyncClient.cpp:270-284 | over any number of objects, threads, generations and exceptions, for each object none of whose generations has both retries and hooks that call callbackError, whatever the other objects do: while a call is inside the gate or a finalizer runs, and, if no sender of the object throws late either, while an attempt is outstanding, the object exists, is not in the cache and is with no pool thread - so data callbacks never see a recycled or deleted pipeline |
| `Ownership.AtRestOnlyTheCacheRemains` | sdk/src/TosAsyncClient.cpp:186-284 | if that holds of all objects: when no pool operation is under way and all objects handed out were executed and came to rest, none is in use any more and creations minus destructions is the length of the cache, at most 64: nothing leaks |
| `OwnershipLimits.EveryLifeIsLived` | sdk/src/TosAsyncClient.cpp:186-284 | whatever state one pipeline object can reach alone, it can reach as an object of the pool, with any number of threads |
| `OwnershipLimits.AttemptsInUseExactlyWhenTame` | sdk/src/TosAsyncClient.cpp:270-284 | in all runs of the pool an object with an outstanding attempt is in use, if and only if none of its generations has retries together with hooks that call callbackError or senders that throw late |
| `OwnershipLimits.CallsInUseExactlyWhenOrderly` | sdk/src/TosAsyncClient.cpp:270-284 | in all runs of the pool an object is in use while a call is inside its gate or a finalizer runs, if and only if none of its generations has both retries and hooks that call callbackError |
| `OwnershipLimits.OldHookTouchesHeldObject` | sdk/src/TosAsyncClient.cpp:190-210 | otherwise there is a run in which a hook of an earlier generation is inside the gate of an object that a thread has taken from the cache and not handed out yet |
| `OwnershipLimits.AtRestExactlyWhenOrderly` | sdk/src/TosAsyncClient.cpp:186-284 | nothing stays in use at rest, in all runs, if and only if no generation of any object has both retries and hooks that call callbackError |
| `Backoff.RetryPolicy.Decorate` | sdk/include/executor/ProcessingPipline.h:1090-1136 | the decorator schedules a retry at the scheduled time, or leaves everything as it was |
| `Backoff.ScheduleIsExact` | sdk/include/executor/ProcessingPipline.h:1104-1133 | for a positive scale the guarded 64-bit computation schedules exactly when the same computation on unbounded integers stays within 64 bits, and then at the same time; for scale zero exactly when, in addition, fewer than 64 attempts were made |
| `Backoff.ShiftGuardIsTooEarly` | sdk/include/executor/ProcessingPipline.h:1112-1113 | the exception is real: with scale zero, failure number 64 is given up although its send time fits |
| `Backoff.NothingOverflows` | sdk/include/executor/ProcessingPipline.h:1109-1130 | no intermediate value leaves 64 bits |
| `Backoff.WaitsLongEnough` | sdk/include/executor/ProcessingPipline.h:1109-1130 | a retry is sent no earlier than now + scale * 2^k and, on status 429 or 503 with a positive Retry-After, no earlier than now + 1000 * Retry-After (section 10.2.3 of RFC 9110), at the later of the two; for any other status exactly after the backoff |
| `Backoff.AttemptsAreBounded` | sdk/include/executor/ProcessingPipline.h:1104-1113 | however long failures go on, at most max_retry_count + 1 attempts, one for a non-positive limit, and never more than 64 |
| `Backoff.BoundIsReached` | sdk/include/executor/ProcessingPipline.h:1104-1113 | failures that may be retried, of any status and scale, use up every attempt as long as their send times fit |
| `Backoff.SendUntilDone` | sdk/include/executor/ProcessingPipline.h:1086-1136 | a whole request on the decorator object: at most the bounded number of attempts, and each retry exactly when its backoff and, on 429 or 503, its Retry-After ask for |
| `ResponseSink.JsonSink.BeginAttempt` | sdk/include/executor/ProcessingPipline.h:1174-1181 | a later attempt clears buffer, marks and counter of the earlier one, but not its limit |
| `ResponseSink.JsonSink.OnContentLength` | sdk/include/executor/ProcessingPipline.h:371-393 | bounded: an announced excess is marked and the limit kept; header-only: the limit is the configured size; legacy: the announced length, else the configured size |
| `ResponseSink.JsonSink.OnDataReceive` | sdk/include/executor/ProcessingPipline.h:395-436 | a chunk is stored whole or not at all, and the transport is told: stored chunks and those that a legacy or header-only sink drops are consumed whole, a chunk that a bounded sink refuses or cannot store consumes nothing and marks the event failed, and nothing else marks it; without the bound a failed allocation is thrown |
| `ResponseSink.AttemptIgnoresChunking` | sdk/include/executor/ProcessingPipline.h:370-436 | for any division into chunks and any earlier attempts, unless storing a chunk within the limit fails: truncated exactly when a bounded response announced too much or the total exceeds the limit, and otherwise the buffer is the exact body |
| `ResponseSink.VerdictIsExpected` | sdk/include/executor/ProcessingPipline.h:438-471 | what the decoder gets to see, or which error the outcome becomes, is a function of the whole body and the limit, except that a chunk within the limit that cannot be stored makes it the allocation error, or without the bound the exception |
| `ResponseSink.NothingStaleIsDecoded` | sdk/include/executor/ProcessingPipline.h:370-436 | whatever allocations fail on the way, bytes handed to the decoder are the exact body of this attempt, within the limit |
| `ResponseSink.Receive` | sdk/include/executor/ProcessingPipline.h:370-471 | one response on the sink object: the transport hears the whole body consumed unless the response is bounded, and then exactly what is stored; a bounded event is marked failed exactly if there was a body and it is not what is decoded |
| `ResponseSink.ReceiveAll` | sdk/include/executor/ProcessingPipline.h:370-471 | the attempts of a whole request delivered into one sink: each response is judged by its own bytes, whatever its chunks, whatever cannot be stored and whatever came before, but for the limit |
| `ResponseSink.IndependentOfEarlierAttempts` | sdk/include/executor/ProcessingPipline.h:1174-1181 | an attempt is judged independently of earlier attempts if and only if the mode is not the legacy one or its own response announced a length; a legacy limit is inherited |
| `ResponseSink.StorageIsBounded` | sdk/include/executor/ProcessingPipline.h:371-436 | a bounded response never stores more than max_body_bytes over any sequence of attempts, headers and chunks |
| `ShapeGuard.Guard.OnEvent` | sdk/include/executor/ProcessingPipline.h:477-488 | one event is admitted exactly within depth and count, and counted unless it ends a container |
| `ShapeGuard.Parse` | sdk/include/executor/ProcessingPipline.h:474-490 | the parse of a document is accepted exactly when the document is within both limits |
| `ShapeGuard.GuardReadsJson` | sdk/include/executor/ProcessingPipline.h:477-488 | from any depth and count, the events of a subtree pass exactly when its nesting and size fit on top, and add its size to the count |
| `ShapeGuard.GuardMatchesTree` | sdk/include/executor/ProcessingPipline.h:477-488 | accepts exactly when containers nest at most max_depth and keys, scalars and container starts are at most max_events (section 9 of RFC 8259) |
| `JsonBody.JsonSender.OnDataSend` | sdk/include/executor/ProcessingPipline.h:557-574 | fills the buffer with the next piece of the JSON, leaves the rest of it alone and advances by what was copied |
| `JsonBody.StreamIsPrefix` | sdk/include/executor/ProcessingPipline.h:557-574 | for any buffer sizes the bytes handed out are a prefix of the JSON, all of it once the sizes sum to its length |
| `JsonBody.StreamEnds` | sdk/include/executor/ProcessingPipline.h:557-574 | from then on nothing more is handed out |
| `JsonBody.SendAttempts` | sdk/include/executor/ProcessingPipline.h:582-589 | every attempt starts from the first byte, however far the one before got |
| `Decorators.Pipeline.DecorateOutcome` | sdk/include/executor/ProcessingPipline.h:303-313 | the new chain runs the old one first |
| `Decorators.Pipeline.SendAll` | sdk/include/executor/ProcessingPipline.h:729-767 | after attempts of which k had no Range header the chain is the configured one followed by k CRC checks, which is observably the configured one and one check |
| `Decorators.RepeatedChecksAreOne` | sdk/include/executor/ProcessingPipline.h:745-757 | any positive number of CRC checks equals one |
| `Decorators.SuccessMeansCrcHolds` | sdk/include/executor/ProcessingPipline.h:745-759 | a success means that the server CRC is zero or equals the computed one, and that no check altered the outcome; a mismatch makes it the client error with the CRC message and keeps everything else |
| `Decorators.Finalizers.RunFinish` | sdk/include/executor/ProcessingPipline.h:1387-1408 | takes the hooks over, then calls each exactly once, call number k being that of the hook registered k-th from the end; the one registered first, which returns the object to its pool, comes last |
| `StageGraph.BuilderIsCorrect` | sdk/include/executor/PiplineCoordinator.h:462-528 | for every script, of any length and with conditions anywhere, running the built graph of next pointers starts exactly the stages that the script says, in that order, and yields the direct meaning of the script |
| `StageGraph.RunMeansScript` | sdk/include/executor/PiplineCoordinator.h:363-415 | the client's callback gets the meaning of the script, cast to its type, or the generic error for a missing, failed or mistyped outcome |
| `StageGraph.CompiledRunsScript` | sdk/include/executor/PiplineCoordinator.h:467-513 | the result of the attached stage, or of either branch of an attached condition, goes through all that is chained later, starting what the script says: branches rejoin |
| `StageGraph.CompileKeepsRest` | sdk/include/executor/PiplineCoordinator.h:467-528 | chaining more changes only the next pointers of the exits, and sets them to the first new stage |
| `StageGraph.OpenConditionRuns` | sdk/include/executor/PiplineCoordinator.h:503-513 | a condition that never got its else branch runs the true branch or reports that the branch is not set |
| `StageGraph.StagesStartInOrder` | sdk/include/executor/PiplineCoordinator.h:94-132 | next pointers lead to later stages: a run starts stages in order of creation, so it ends, and none is started twice |
| `StageGraph.StepRunsOnItsTypeOnly` | sdk/include/executor/PiplineCoordinator.h:111-166 | a step runs exactly on a success of the type it was chained for; a failure of that type is passed on unchanged, anything else becomes the mismatch error, and both stop the run |
| `StageGraph.ConditionBranchesOnItsTypeOnly` | sdk/include/executor/PiplineCoordinator.h:257-286 | a condition passes exactly a success of its type to the branch its predicate chooses, and reports a mismatch, the failure, or a missing branch otherwise |
| `StageGraph.SuccessGoesOn` | sdk/include/executor/PiplineCoordinator.h:392-415 | a result starts the next stage exactly if it is a success and there is one; otherwise it ends the run |
| `StageGraph.CallerGetsItsType` | sdk/include/executor/PiplineCoordinator.h:363-389 | the final callback gets an outcome of its own type unchanged, failures of that type included, and else one of three errors that say why |
| `Coordinator.Stage.SetNext` | sdk/include/executor/PiplineCoordinator.h:247-255 | sets the pointer of the stage and, for a condition, of its branches, and no other |
| `Coordinator.Stage.StartExec` | sdk/include/executor/PiplineCoordinator.h:111-129 | mismatched input and failures are reported, a success runs the step; the whole rest of the run follows the graph |
| `Coordinator.Stage.StartCondition` | sdk/include/executor/PiplineCoordinator.h:257-286 | chooses a branch by the predicate, or reports mismatch, failure or a missing branch; the rest follows the graph |
| `Coordinator.PiplineCoordinator.OnStageResult` | sdk/include/executor/PiplineCoordinator.h:392-415 | ignored before run; otherwise the final callback is called exactly once and the coordinator released exactly if it releases itself; every method demands a coordinator that is not released, so no call is made on one that is |
| `Coordinator.PiplineCoordinator.Run` | sdk/include/executor/PiplineCoordinator.h:363-389 | starts the root if there is one; the final callback gets what the graph comes to |
| `Coordinator.Chain.Append` | sdk/include/executor/PiplineCoordinator.h:467-500 | then and mapReduce create one stage and link the exits of the attached one to it |
| `Coordinator.Chain.ThenIf` | sdk/include/executor/PiplineCoordinator.h:503-513 | creates the condition with its true branch and links the attached stage to the condition |
| `Coordinator.ConditionBuilder.Else` | sdk/include/executor/PiplineCoordinator.h:519-528 | creates the false branch and hands on the condition, so that what is chained next is linked to both branches |
| `Coordinator.BuildAndRun` | sdk/include/executor/PiplineCoordinator.h:344-415 | a client that chains a script and runs it gets exactly one callback, with the meaning of the script; the stages it says were started, in that order; the coordinator is released exactly if asked to |
| `ForkJoin.Join.StartAll` | sdk/include/executor/PiplineCoordinator.h:169-216 | the starting loop, with runners that report at once, throw or report later: results are the outcome of each that reports and the error for each that throws, as often as there are such runners and in order; what is still pending is the number that report later; if there is none the reducer has been called once, with all of them, and else not yet |
| `ForkJoin.ReducedOnce` | sdk/include/executor/PiplineCoordinator.h:178-216 | over every interleaving of pushes and decrements: the reducer is called at most once, never early, and in the end exactly once, with exactly the multiset of all runner outcomes; exactly one thread saw zero; no runners reduce the empty list |
| `ForkJoin.NobodyPushesWhileReducing` | sdk/include/executor/PiplineCoordinator.h:182-193 | the reducer reads the results without the lock, and while it can no step of another thread changes them |
| `ForkJoin.NeverStuck` | sdk/include/executor/PiplineCoordinator.h:195-216 | until the join is over some thread has a step to take or a runner still owes its report |
| `ForkJoin.InterleavingDoesNotShow` | sdk/include/executor/PiplineCoordinator.h:178-216 | with a reducer indifferent to order, two finished runs with the same reports end in the same reduction |
| `Reporting.ReusedObjectIsReady` | sdk/include/executor/ProcessingPipline.h:694-704 | an object that comes out of the pool with any past, of which no generation had both retries and hooks that call callbackError, can take the part of a step's pipeline, whatever calls and attempts are left of its past |
| `Reporting.NewPipeWaits` | sdk/include/executor/ProcessingPipline.h:694-704 | until the step executes it, what is left of the past does not get into the new generation and does not run its callback |
| `Reporting.OnlyClaimsRunCallback` | sdk/include/executor/ProcessingPipline.h:1310-1323 | the only step that runs the callback is the successful claim, and it leaves its thread inside the callback |
| `Reporting.QuietPipeHasReported` | sdk/include/executor/ProcessingPipline.h:1310-1323 | a pipeline, new with whatever settings or reused as above, that was executed and came to rest has reported exactly once and cleaned up exactly once in its generation |
| `ParallelStage.NextKeepsInv` | sdk/include/executor/PiplineCoordinator.h:146-216 | a mapReduce stage whose runners are pipelines, on new objects with whatever settings or on reused ones as above, or throw before: every step of loop, callbacks and pipelines keeps join and pipelines in agreement |
| `ParallelStage.ReduceHandsOverAll` | sdk/include/executor/PiplineCoordinator.h:182-193 | the step that reduces hands over, as a multiset, exactly the outcomes of all pipelines and the errors of the runners that threw, and it comes once |
| `ParallelStage.ReducedMeansReported` | sdk/include/executor/PiplineCoordinator.h:178-193 | the reduction comes after every runner was called and the pipeline of each that did not throw was executed and called back once |
| `ParallelStage.RestMeansReduced` | sdk/include/executor/PiplineCoordinator.h:146-216 | when the loop is over and the pipelines have come to rest the reducer has been called exactly once, and each pipeline has reported and cleaned up exactly once |
| `ParallelStage.RestlessGoesOn` | sdk/include/executor/PiplineCoordinator.h:146-216 | until then the loop, a callback, a pipeline or its transport can take a step |
| `Composition.NextKeepsInv` | sdk/include/executor/PiplineCoordinator.h:363-415 | each step of a pipeline or runner and each report, on new objects with whatever settings or on reused ones as above, keeps the coordinator on the track of some execution of its graph, with at most one step yet to report; no reducer is excluded |
| `Composition.FinalCallbackAtMostOnce` | sdk/include/executor/PiplineCoordinator.h:392-415 | in every interleaving of such pipelines and for every reducer, also one that depends on the order of reports, at most one final callback; release comes with it, once; no stage is started and nothing is delivered afterwards |
| `Composition.EveryStepWaits` | sdk/include/executor/PiplineCoordinator.h:94-132 | in every run no step is passed over: each started stage was handed what the one before it passed on; each that is backed by pipelines and has a step to run has exactly one job, no other stage has one, and no later stage is started and nothing is delivered before the callbacks of its pipelines have run, once each; what is delivered is what the last stage ended with |
| `Composition.AllAtRestMeansDelivered` | sdk/include/executor/PiplineCoordinator.h:363-415 | for every reducer: once run was called and such pipelines came to rest, mapReduce runners included, the final callback has been called exactly once, the coordinator released exactly once if it releases itself, and each started stage with pipelines to wait for has its one job, whose pipelines were executed, called back once and cleaned up once |
| `Composition.DeliveredIsRealized` | sdk/include/executor/PiplineCoordinator.h:178-193 | for every reducer: what is delivered, and which stages were started, is what the graph comes to when the work of each mapReduce stage is what its reducer makes of the outcomes of all runners in some order of arrival |
| `Composition.RestlessGoesOn` | sdk/include/executor/PiplineCoordinator.h:363-415 | until a started step has come to rest something of it can take a step |
| `Composition.ScriptIsDelivered` | sdk/include/executor/PiplineCoordinator.h:363-415 | for every reducer: a script of pipeline-backed steps that came to rest has delivered its meaning, each mapReduce taken as its reducer on some order of arrival, and has started the stages that this meaning says, each of which has waited for its pipelines |
| `Composition.OutcomeIsDetermined` | sdk/include/executor/PiplineCoordinator.h:178-216 | if no reducer cares for the order of the outcomes, what is delivered and started is the same in every interleaving: what the graph comes to, and for a script its meaning |
| `ReplacedWorks.BuildCommutes` | sdk/include/executor/PiplineCoordinator.h:462-528 | the builder does not look at the work of a mapReduce stage: building a script with other work is building it and replacing the work |
| `Dispatch.FnsStepAnswers` | sdk/src/TosAsyncClient.cpp:1608-1690 | the nested stat and list callbacks answer case by case: nothing is listed unless the stat failed with 404 and the fallback is on, else the stat's outcome is passed on unchanged; a list error is passed on, an empty listing is 404, the first entry becomes the status; exactly the requests for that are sent |
| `Dispatch.HnsStepAnswers` | sdk/src/TosAsyncClient.cpp:1576-1606 | one object HEAD, its error passed on or its fields carried over, the size being the content length |
| `Dispatch.FlatStatusFindsDirectories` | sdk/src/TosAsyncClient.cpp:1610-1690 | on a flat bucket that answers for its objects: with the fallback a status is found exactly for objects and for directories that objects lie under, without it exactly for objects, and otherwise the error is 404 |
| `Dispatch.ScriptIsDecision` | sdk/src/TosAsyncClient.cpp:1694-1703 | the coordinator script of getFileStatus sends the bucket HEAD exactly if nothing is cached, and then result and requests are those promised for the bucket's type; a failed bucket HEAD becomes the generic error |
| `Dispatch.UsableIsYounger` | sdk/src/TosAsyncClient.cpp:1186-1193 | an entry is usable exactly if it is younger than fifteen minutes to the nanosecond, although whole seconds are compared |
| `Dispatch.ImmutableTypesHideCache` | sdk/src/TosAsyncClient.cpp:999-1084 | with immutable bucket types a usable entry says what a HEAD would say |
| `Dispatch.AsyncClient.Lookup` | sdk/src/TosAsyncClient.cpp:1190-1193 | answers exactly from entries younger than fifteen minutes, with the type they hold, which the bucket had in that time |
| `Dispatch.AsyncClient.GetBucketType` | sdk/src/TosAsyncClient.cpp:1184-1229 | goes by a recent type or by the HEAD; only the answer of a needed HEAD enters the cache, if the put succeeds, and the cache stays truthful |
| `Dispatch.AsyncClient.AppendObject` | sdk/src/TosAsyncClient.cpp:999-1084 | for any truthful cache, fresh or stale, and any put: the direct decision; on a flat bucket the append, on a hierarchical one a modify of the same bytes at the same offset whose outcome is carried over field by field, the HEAD's error passed on |
| `Dispatch.AsyncClient.GetFileStatus` | sdk/src/TosAsyncClient.cpp:1521-1704 | the same for file status, run by the coordinator objects: result and requests are those of the decision, and a failed HEAD becomes the generic error of a stopped run |
| `TokenBucket.RateLimiter.constructor` | sdk/include/Type.h:287-296 | starts with as many tokens as the capacity asked for, under a capacity of at least 80000 and a rate of at least 1000 |
| `TokenBucket.RateLimiter.Acquire` | sdk/include/Type.h:297-322 | refills by the truncated product up to the capacity; waves wants above the capacity through without taking tokens, refuses with the truncated time in which the rate yields what is missing, or ten milliseconds if that is none, or takes exactly the tokens |
| `TokenBucket.AmountStaysInRange` | sdk/include/Type.h:297-322 | over any run the amount stays in [0, capacity] |
| `TokenBucket.RateBound` | sdk/include/Type.h:286-331 | over any contiguous window of any run, tokens granted to wants within the capacity are at most capacity + rate * elapsed-ms / 1000 |
| `TokenBucket.ArithmeticFits` | sdk/include/Type.h:302-314 | the 64-bit computation overflows nowhere while a thousand capacities and the refill earned fit |
| `TokenBucket.GrantedWithinFour` | sdk/include/Type.h:297-322 | a lone caller that waits as told is granted within four calls for every rate, although wait and refill are truncated |
| `TokenBucket.AcquirePatiently` | sdk/include/Type.h:297-322 | such a caller's loop on the limiter object ends with a granted reply after at most four calls, each no earlier than the last one told, however much longer it waits; the limiter is as these calls leave it |
| `TokenBucket.AcquireAll` | sdk/include/Type.h:297-322 | any sequence of calls on the limiter object is granted as much as the run of these calls from its state says, and that is within the rate bound |
| `TokenBucket.ThreeCallsAreNotEnough` | sdk/include/Type.h:297-322 | four is tight: at rate 1999 a caller three tokens short is refused three times |

## Left out

- AsyncHttpClient, AsyncEngine, LockFreeCache, FileTransfer: only their contracts are used (the
  sender contract; a map whose put may fail).
- enableReadFromFile, enableWrite2File and FileContext: system calls; of their hooks only the call
  of callbackError is modelled.
- checkShouldRetry and the JSON parser: an arbitrary predicate, and a function from trees to events.
- Fields that json2Output and the error fields Code, Message, RequestId, HostId and Condition fill in.
- ResponseSink: what a transport does with an exception of its data callback (the attempt is then
  never decided here), a throwing reserve in the Content-Length callback, and a missing data
  pointer, which is like an empty chunk.
- Weak memory ordering: critical sections and atomic counters are single steps.
- Logging, progress callbacks, cancel hooks, AsyncEvent beyond markFailed, SDK request headers.
- The client calling asyncExecute a second time for one request: outside the pipeline's contract; user code
  that calls it again from the callback or a finalizer is in the model.
- Exceptions of user callbacks and of finalizers: they are swallowed where they occur, so they are
  the same step as a return.
- PipelinePool: several pools, one for each request type, share the two counters; the model has one
  pool.  Static destruction of the pools is not modelled.
- PipelinePool.Throws: an exception while a request is configured deletes the object, as in
  newBasePipeline.  abortMultipartUploadAsync and setObjectTimeAsync configure through a raw
  pointer (`TosAsyncClient.cpp:1332`, `TosAsyncClient.cpp:1389`), where the object leaks.
- AnyOutcome: a type tag and a value stand for the erased C++ type; all values of a graph have one
  Dafny type.
- Coordinator: a step is a function from its input to the outcome that it reports; asynchronous reports and
  parallel runners are the subject of Composition.  One Chain value is used for one
  continuation.
- Composition: a step whose pipeline cannot even be created reports nothing, and then the
  final callback is not called; the theorem about rest requires that every pipeline was executed.
  What a pipeline hands over is given for each step and runner.  Each pipeline of a run gets an
  object of its own; that one object may serve two steps of a run, one after the other, is not traced.
- Composition.AllReady: a reused object of which an earlier generation had both retries and hooks
  that call callbackError is left out: a hook left of it may call the new generation (OldHookTouchesHeldObject).
- Dispatch: a HEAD is answered and put into the cache at one moment; concurrent operations on
  the cache are not interleaved.  Headers, meta data, object types and id2 are left out of the
  outputs; getFileStatus's requests are recorded, those of the other operations are not.
- RateLimiter.Acquire: computes on unbounded integers; ArithmeticFits says when 64 bits are enough.
- Token bucket callers that share one limiter: the progress bound is about a lone caller.
- Request signing, URL building, configuration, credentials, the synchronous clients.
