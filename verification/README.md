# mini_async_simple, verified

A model of a small C++20 library of futures, coroutines and executors, and proofs about what its protocols promise:
"exactly once", "only after" and "on the right worker", over every interleaving.

Each layer comes as a machine of atomic steps, with the assertions and error branches of the C++ code kept as faults; an
invariant every step keeps; theorems over whole runs; and, for the code that updates objects in place, a class whose methods
keep the control flow of the C++ code and are proved to take the steps of the machine. Where threads race, on the shared
state and in the collect combinators, everybody else may take any number of steps between two atomic operations of such a
method. Locked sections are one step; a failing `try_lock`, `rand()`, thread and worker choices, foreign awaitables and the
arrival of results are left open.

| layer | files |
|---|---|
| results | `TryModel`, `TryObject`, `Tallies` (sums used throughout) |
| shared state of promise and future | `FutureState`, `FutureStateProofs`, `FutureStateTheorems`, `FutureStateLimits`, `FutureStateClearing`, `FutureStatePlacement`, `FutureStateObject`, `PromiseObject`, `FutureObject` |
| chains of callbacks | `ThenChain`, `ThenMachine`, `ThenTheorems`, `ThenContract` (what a chain assumes of a cell, proved of the shared state) |
| collecting futures | `FutureCollect`, `FutureContract` (the assumption of the former, proved of the shared state), `FutureCollectObject` |
| coroutines | `CoroutineCode`, `CoroutineMachine`, `CoroutineHandles`, `CoroutineProofs`, `CoroutineOwnership`, `CoroutineAffinity`, `CoroutineMeaning`, `CoroutineTheorems`, `CoroutineSegments`, `CoroutineLaws`, `CoroutineRuns`, `CoroutineRuntime` |
| collecting coroutines | `TaskLog`, `CollectAll`, `CollectAny`, `CollectObjects`, `Windowed`, `RoundRobin`, `CallbackContract` (what they assume of a task, proved of coroutines) |
| executor | `ThreadPoolMachine`, `ThreadPoolProofs`, `ThreadPoolTheorems`, `ThreadPoolObject`, `SimpleExecutor`, `PoolContract` (what the shared state assumes of an executor, proved of the pool) |

`dafny verify dfyconfig.toml` checks everything.

## Where the code does not do what one would expect

Each of these is a lemma with the exact condition, a concrete run, or both.

- Move assignment of a `Future` or `Promise` forgets the old state without detaching from it, and `Wait` ends with one, so a
  state that was waited for is never freed. The counters include these abandoned handles (`MemoryTheorem`, `Wait`).
- A moved-from ready future is still valid, because moving a `Try` keeps its tag (`FutureObject.Future.Move`).
- `attached_` has eight bits: with 257 holders one detaching frees the state under the others (`EightBitsWrapAround`, `DetachWorksExactly`).
- `SetExecutor(nullptr)` while a producer is on its way to submit the continuation makes it dereference null
  (`ClearingExactly`). `Wait` does that to a future with an executor and a continuation whose result arrives between its test
  and its `SetExecutor(nullptr)` (`WaitRacesExactly`, `WaitMayCrash`); a handle that has installed no continuation is safe.
- Forced scheduling with a later `SetExecutor(nullptr)` dereferences null as well (`NullExecutorExactly`,
  `OnlySetExecutorHelps`), so `Wait` on such a future never returns (`ForcedIsNeverCalled`). A `Wait` that is refused for a
  second continuation has dropped the executor already (`WaitPending`).
- Nested binds are not associative for a `ThenTry` behind a callback that throws or is skipped (`AssociativeExactly`).
- A coroutine that never yields can change its worker, when a child it awaits without `Via` yields; what stays put is the
  strand, a coroutine with its plainly awaited descendants (`AffinityTheorem`, `MovedByItsChild`).
- A `RescheduleLazy` has no destructor: one that is dropped leaks its coroutine (`OwnershipTheorem`,
  `DiscardedRescheduleLeaks`), and so do those that `CollectAny` does not start (`NeverStarted`, `LeaksTheRest`).
- `Yield`, the await of a `RescheduleLazy` and the final awaiter of a via coroutine ignore a false answer; then the callback of
  `Start` is never called and the frames stay (`ComputesEval`, `OwnershipTheorem`, `RefusedYieldIsLost`).
- `Yield` or a `RescheduleLazy` under a null executor fails exactly where evaluation reaches it (`CrashesExactly`,
  `YieldNeedsExecutor`, `UnreachedYieldIsHarmless`).
- `CollectAllPara` ignores a false answer of `Schedule` and then never resumes its coroutine (`ResumedUnlessLost`,
  `RefusalLosesTheCoroutine`). The comment in `include/async_simple/executor/executor.hpp:48-49` lets an executor answer so.
- `CollectAny` fails on empty input (`NeedsInput`), and after an inline completion goes on starting tasks, unless the result
  is void (`StartsAfterResumption`, `StartsAnotherTask`).
- `Checkout` outside the pool gives a context that cannot be given back (`OutsiderDoesNotRoundTrip`).
- A submission that straddles the destructor is accepted and may never run (`LateTheorem`, `StraddlingJobIsLost`,
  `LateItemMayBeStolen`).

## Hypotheses

At most one `SetResult` and one `SetContinuation` are in flight on a shared state, and a handle in use is not destroyed. The
executor is replaced at any time, but taken away only where it may be null (`Careful`); what happens otherwise is exact in
`FutureStateClearing` and `FutureStateLimits`. An executor may refuse any job. It runs a job it accepted and no job it
refused, keeps a copy of a job it still has to run, and runs a pinned job on its worker; every step and answer of the pool is
proved to be one that the shared state allows (`PoolContract`), and the pool runs what it accepted as long as no submission
straddles its destructor (`ConservationTheorem`, `DrainTheorem`, `RejectedNeverRuns`, `PinTheorem`). That the callback of each
collected task is called once, with its result, is proved of coroutines (`CallbackContract`, `ComputesEval`).

## Model

| member | source | states |
|---|---|---|
| `FutureStateTheorems.NeverCrashes` | include/async_simple/sync/future_state.hpp:143-251 | In every interleaving of one producer, one consumer, the executor and any number of handles, with at most 255 attachments and the executor taken away only where it may be null, no assertion or error branch is reached, nothing touches a freed state, and the whole invariant holds |
| `FutureStateTheorems.HandoffTheorem` | include/async_simple/sync/future_state.hpp:143-201 | Exactly one of the two parties moves the state to kDone; a state with a result holds the one value that was stored, a state with a continuation the one that was installed |
| `FutureStateTheorems.ContinuationLifetime` | include/async_simple/sync/future_state.hpp:211-251 | However the executor answers and however often the closure is copied: the continuation is called at most once and with the stored result, is the installed one and alive while it runs, and is destroyed at most once and only after that call returned; once everything has settled in kDone both have happened; a job answered false is not run by the executor |
| `FutureStateTheorems.MemoryTheorem` | include/async_simple/sync/future_state.hpp:96-121 | attached_ is exactly live futures + live promises + continuation references + abandoned handles, continuation_ref_ exactly the live references; the state is freed once, when the last holder is gone, nobody can act on it after that, and never while a handle was abandoned |
| `FutureStateTheorems.NoOrphanedFuture` | include/async_simple/sync/future_state.hpp:106-121 | Once no promise is live, being copied or abandoned, and the last destructor is through, the state has a result; it is Exception(BrokenPromise), written by that destructor, if and only if nobody ever set one |
| `FutureStateTheorems.ContinuingMakesProgress` | include/async_simple/sync/future_state.hpp:143-251 | Every step that continues something already begun strictly decreases a measure, so SetResult, SetContinuation, the job and the destructors all end |
| `FutureStateTheorems.AlwaysCanContinue` | include/async_simple/sync/future_state.hpp:143-251 | Whatever has been begun and is unfinished, some step continues it: no party is ever stuck |
| `FutureStateTheorems.EightBitsWrapAround` | include/async_simple/sync/future_state.hpp:254-255 | The bound is needed: with 257 attachments attached_ stands at 1 again, and dropping one future frees a state that 256 handles still use |
| `FutureStateLimits.DetachWorksExactly` | include/async_simple/sync/future_state.hpp:99-105 | For every run, without any bound: attached_ is the number of holders modulo 256, only DetachOne frees, and DetachOne works, freeing the state for the last holder only, if and only if there is one holder or their number is not 0 or 1 modulo 256 |
| `FutureStateLimits.NullExecutorExactly` | include/async_simple/sync/future_state.hpp:211-227 | Without an executor, for either party and whatever the rest of the state: the scheduling thread by itself runs into the call through a null pointer if and only if scheduling is forced |
| `FutureStateLimits.WithoutExecutorRunsInline` | include/async_simple/sync/future_state.hpp:214-217 | And if scheduling is not forced, the same thread by itself calls the continuation inline, with the stored result, and leaves |
| `FutureStateLimits.ForcedExactly` | include/async_simple/sync/future_state.hpp:136-141 | SetForceScheduled(force) leaves the state forced if and only if force is true and the state had an executor or was forced; nothing else changes |
| `FutureStateLimits.OnlySetExecutorHelps` | include/async_simple/sync/future_state.hpp:126-141 | Once a thread is on the queued path without an executor, no step of anybody, in any run, helps it but a SetExecutor with an executor: without one it never gets past the submission |
| `FutureStateClearing.ClearingExactly` | include/async_simple/sync/future_state.hpp:211-234 | On a state that is not forced, or is done, SetExecutor(nullptr) leads somebody into a call through a null pointer if and only if a thread is between line 214 and its submission, or is about to decide under forced scheduling; otherwise no run without a new executor does |
| `FutureStateClearing.WaitRacesExactly` | include/async_simple/sync/future.hpp:97-116 | On a pending state that is not forced, others can move between the test of Wait and its SetExecutor(nullptr) so that a producer calls through the null pointer, if and only if the state has an executor and a continuation and its result may still come; so never for a handle that has installed none |
| `FutureStateClearing.WaitMayCrash` | include/async_simple/sync/future.hpp:97-116 | A run that gets there: SetExecutor, SetContinuation, then Wait while the result arrives, without any forcing |
| `FutureStateLimits.ForcedIsNeverCalled` | include/async_simple/sync/future_state.hpp:211-234 | On a forced state without an executor the continuation is not called in any run that neither sets an executor nor lifts the forcing |
| `FutureStatePlacement.TriggeringRunsInline` | include/async_simple/sync/future_state.hpp:193-196 | When scheduling is not forced, the thread of SetContinuation that moved the state to kDone calls the continuation itself, with the stored result, and leaves with nothing submitted, whatever the executor |
| `FutureStatePlacement.InsideRunsInline` | include/async_simple/sync/future_state.hpp:214 | And so does the thread of SetResult when it belongs to the executor |
| `FutureStatePlacement.OtherwiseGivesAway` | include/async_simple/sync/future_state.hpp:218-239 | Any other thread with an executor, and any thread under forced scheduling, submits: Checkin with the context if there is one, prompt unless forced, and Schedule otherwise; it calls the continuation if and only if the answer is false |
| `FutureStateTheorems.ForcedWithoutExecutorCrashes` | include/async_simple/sync/future_state.hpp:126-141 | A concrete run: SetForceScheduled, then SetExecutor(nullptr), then result and continuation ends in that null dereference |
| `FutureStateProofs.StepKeepsInv` | include/async_simple/sync/future_state.hpp:96-251 | One atomic step of anybody keeps the hand-off protocol, the promise accounting and the counters, and meets no failing assertion |
| `FutureStateProofs.ActorsHoldTheState` | include/async_simple/sync/future_state.hpp:96-121 | Whoever can still take a step holds the state, so it has not been freed |
| `FutureStateObject.FutureState.constructor` | include/async_simple/sync/future_state.hpp:74-81 | A fresh state with one promise attached is the initial state of the machine |
| `FutureStateObject.FutureState.AttachOne` | include/async_simple/sync/future_state.hpp:96-98 | fetch_add on eight bits, wrap-around included |
| `FutureStateObject.FutureState.DetachOne` | include/async_simple/sync/future_state.hpp:99-105 | Releases one attachment; the last one frees the state |
| `FutureStateObject.FutureState.DerefContinuation` | include/async_simple/sync/future_state.hpp:245-251 | Releases one reference; the last one destroys the continuation, which is live and not running then |
| `FutureStateObject.FutureState.DecideWhere` | include/async_simple/sync/future_state.hpp:214 | What was seen of forcing, executor and thread decides: the immediate path if and only if scheduling is not forced and there is no executor, or this is the thread of SetContinuation, or it belongs to the executor; result, continuation and kDone stay while everybody else moves |
| `FutureStateObject.FutureState.RunImmediately` | include/async_simple/sync/future_state.hpp:215-217 | Guard, call, release: the thread leaves with the state still kDone and both logs untouched |
| `FutureStateObject.FutureState.Queue` | include/async_simple/sync/future_state.hpp:218-234 | Two guards and the submission: the thread comes back with the answer of the executor, the continuation still live |
| `FutureStateObject.FutureState.ScheduleContinuation` | include/async_simple/sync/future_state.hpp:211-240 | From kDone the scheduling thread always leaves, with the invariant kept under arbitrary interference between any two atomic operations; if it decided to call at once, no job was ever offered, and otherwise one was, and was accepted or rejected |
| `FutureStateObject.FutureState.LoadInSetResult` | include/async_simple/sync/future_state.hpp:147 | The load can only see kStart or kOnlyContinuation |
| `FutureStateObject.FutureState.ExchangeForOnlyResult` | include/async_simple/sync/future_state.hpp:150-154 | Either the state becomes kOnlyResult and SetResult is over, or the seen phase is written back |
| `FutureStateObject.FutureState.PassAssertInSetResult` | include/async_simple/sync/future_state.hpp:156 | After a failed first CAS the state is kOnlyContinuation |
| `FutureStateObject.FutureState.ExchangeForDoneByResult` | include/async_simple/sync/future_state.hpp:159-164 | The second CAS always succeeds, and this party becomes the one that schedules |
| `FutureStateObject.FutureState.SetResult` | include/async_simple/sync/future_state.hpp:143-169 | Under arbitrary interference: refused if and only if there was a result; afterwards there is exactly one stored result, this one unless refused |
| `FutureStateObject.FutureState.LoadInSetContinuation` | include/async_simple/sync/future_state.hpp:180 | The load can only see kStart or kOnlyResult |
| `FutureStateObject.FutureState.PassAssertInSetContinuation` | include/async_simple/sync/future_state.hpp:188 | After a failed first CAS the state is kOnlyResult |
| `FutureStateObject.FutureState.ExchangeForDoneByContinuation` | include/async_simple/sync/future_state.hpp:191-196 | The second CAS always succeeds, and this party becomes the one that schedules |
| `FutureStateObject.FutureState.SetContinuation` | include/async_simple/sync/future_state.hpp:171-201 | Under arbitrary interference: refused if and only if there was a continuation; afterwards there is exactly one installed, this one unless refused, and the handle of the caller is still live |
| `FutureStateObject.FutureState.AttachPromise` | include/async_simple/sync/future_state.hpp:106-109 | One more promise handle, counted in promise_ref_ and attached_ |
| `FutureStateObject.FutureState.DetachPromise` | include/async_simple/sync/future_state.hpp:110-121 | The last promise of a state without a result leaves Exception(BrokenPromise) behind, and a result that is there stays what it is; any other promise leaves everything alone |
| `PromiseObject.Promise.constructor` | include/async_simple/sync/promise.hpp:14-16 | A promise starts as the only holder of a fresh state |
| `PromiseObject.Promise.Copy` | include/async_simple/sync/promise.hpp:22-26 | Copying counts one more promise on the same state and shares the has-future flag |
| `PromiseObject.Promise.Move` | include/async_simple/sync/promise.hpp:37-40 | Moving transfers the handle and the flag, counts nothing and leaves the source without a state |
| `PromiseObject.Promise.Destroy` | include/async_simple/sync/promise.hpp:17-21 | The last promise to go leaves Exception(BrokenPromise) behind if there is no result, and the result alone if there is one; any other only lowers the counts |
| `PromiseObject.Promise.MoveAssign` | include/async_simple/sync/promise.hpp:42-46 | The old state is not detached from: it counts an abandoned promise for ever, and its invariant still holds |
| `PromiseObject.Promise.Assign` | include/async_simple/sync/promise.hpp:27-35 | Destroy then copy: the new state gains a promise, the old one gets its broken-promise result if this was its last; self-assignment changes nothing |
| `PromiseObject.Promise.GetFuture` | include/async_simple/sync/promise.hpp:50-55 | Refused exactly for a moved-from promise or a second time; otherwise one more live future |
| `PromiseObject.Promise.Checkout` | include/async_simple/sync/promise.hpp:57-62 | The context is remembered exactly when there is an executor, and nothing else changes |
| `PromiseObject.Promise.ForceScheduled` | include/async_simple/sync/promise.hpp:64-69 | Scheduling is forced afterwards if and only if there is an executor or it was forced before, and nothing else changes |
| `PromiseObject.Promise.SetValue` | include/async_simple/sync/promise.hpp:71-82 | Refused if and only if the promise is moved-from or the state has a result; afterwards the state has a result, this one unless refused |
| `FutureObject.LocalState.Move` | include/async_simple/sync/local_state.hpp:22-24 | The result and the executor move over; the source loses its executor but still reports a result |
| `FutureObject.LocalState.MoveAssign` | include/async_simple/sync/local_state.hpp:25-31 | Assignment swaps both members |
| `FutureObject.LocalState.SetContinuation` | include/async_simple/sync/local_state.hpp:48-52 | On a ready state the continuation is applied at once to the held Try |
| `FutureObject.Future.Move` | include/async_simple/sync/future.hpp:29-32 | A moved-from future becomes invalid if it was pending and stays valid if it was ready |
| `FutureObject.Future.Destroy` | include/async_simple/sync/future.hpp:23-27 | Destroying a pending future is the detaching step of the machine and keeps the invariant of its state |
| `FutureObject.Future.MoveAssign` | include/async_simple/sync/future.hpp:34-40 | The old shared state keeps an abandoned handle and its invariant; the local states are swapped; self-assignment changes nothing |
| `FutureObject.Future.SetExecutor` | include/async_simple/sync/future.hpp:57-63 | Sets the executor, null included and at any time, of whichever state the future has, and of nothing else; null leaves the invariant where it is harmless, and otherwise a state that never calls its continuation or one where a thread is about to call through the null pointer |
| `FutureObject.Future.SetContinuation` | include/async_simple/sync/future.hpp:73-80 | A pending future refuses if and only if it has a continuation already and keeps this one otherwise; a ready one applies it at once to its result |
| `FutureObject.Future.AwaitCall` | include/async_simple/sync/future.hpp:107-113 | SetExecutor(nullptr) and SetContinuation on a state in any phase, with everybody else moving: a state that has a continuation refuses, a forced one will never call, and otherwise it returns if the continuation has been called, with the stored result, and blocks only as long as it has not; a clearing that did harm is reported as such |
| `FutureObject.Future.WaitPending` | include/async_simple/sync/future.hpp:105-115 | It blocks only as long as nobody has called the continuation. When it returns, the future refers to a fresh state whose result is the one stored in the old state, which the continuation was called with, and the old state keeps an abandoned handle; when it does not, the future is unchanged but the executor is gone, which does harm only if it is refused or will never call |
| `FutureObject.Future.Wait` | include/async_simple/sync/future.hpp:97-116 | With everybody else moving between its tests and after them: refused exactly on an invalid future; the deadlock assertion fails exactly for a pending future on a thread of its executor; a second continuation is refused exactly if there was one, and only then can a thread be left with a null pointer; it blocks only as long as the continuation has not been called; when it returns the future has a result, the one that was stored in the state it waited for, and one that had a result is left as it was |
| `TryObject.TryCell.Destroy` | include/async_simple/base/try.hpp:112-119 | Leaves nothing, running the destructor of the payload exactly if there was one |
| `TryObject.TryCell.MoveAssign` | include/async_simple/base/try.hpp:46-56 | The target takes the contents, the source keeps its tag, no payload is leaked or destroyed twice, self-assignment changes nothing |
| `TryObject.TryCell.SetException` | include/async_simple/base/try.hpp:86-93 | Holds the exception afterwards; the very same exception is not constructed again |
| `TryObject.TryCell.GetValue` | include/async_simple/base/try.hpp:100-109 | The value, the held exception, or a logic_error when there is nothing |
| `TryObject.MakeTryCall` | include/async_simple/base/try.hpp:166-177 | The Try holds the value the call returned or the exception it threw, whichever happened, and is never empty |
| `ThenChain.NestMeans` | include/async_simple/sync/future.hpp:176-193 | Chaining g inside the callback that returns a future runs g exactly when that callback did not throw |
| `ThenChain.AssociativeExactly` | include/async_simple/sync/future.hpp:155-195 | (m.Then(f)).Then(g) and m.Then(x => f(x).Then(g)) give the same result by the same calls if and only if g is a ThenValue, or f is run and does not throw |
| `ThenChain.FlatHandlesWhatNestedMisses` | include/async_simple/sync/future.hpp:163-172 | A concrete f that throws and a ThenTry g: the flat chain recovers, the nested one does not |
| `ThenChain.ThenValuePassesExceptions` | include/async_simple/sync/future.hpp:131-141 | ThenValue does not run its callback on an exception but passes the exception on |
| `ThenChain.ThenTryRuns` | include/async_simple/sync/future.hpp:156-221 | ThenTry runs its callback on whatever result there is, and the chain comes to the value it returns, the exception it throws or the result of the future it returns |
| `ThenChain.ThenValueRuns` | include/async_simple/sync/future.hpp:131-141 | So does ThenValue on a value |
| `ThenMachine.BuildMeans` | include/async_simple/sync/future.hpp:125-221 | The expression that builds a chain leaves one tidy path of pending cells, and what was run plus what is pending is what direct evaluation gives |
| `ThenMachine.AttachMeans` | include/async_simple/sync/future.hpp:155-221 | Attaching a callback, at once on a local future or through a new promise on a shared one, composes with the meaning so far |
| `ThenMachine.FollowJoin` | include/async_simple/sync/future.hpp:183-187 | A nested future forwarded into the outer promise: its path followed by the outer path |
| `ThenTheorems.FireKeeps` | include/async_simple/sync/future.hpp:176-218 | Running the continuation of a resolved cell, callback, forward or passed-by exception, keeps the meaning of the chain |
| `ThenTheorems.StepKeepsInv` | include/async_simple/sync/future.hpp:155-221 | Every step of the builder, of an owner or of a continuation keeps the meaning and leaves less to do |
| `ThenContract.ChainFollows` | include/async_simple/sync/future.hpp:125-221 | Every step of a chain moves every cell as a shared state can: a result set once, a continuation installed once and used up only when its cell is fired, with that result |
| `ThenContract.StateFollows` | include/async_simple/sync/future_state.hpp:143-251 | And every atomic step of the shared state moves it so: result and continuation set once and kept, the continuation called once, after there is a result and with it |
| `ThenContract.SettledIsUsed` | include/async_simple/sync/future_state.hpp:211-240 | Once every operation that was begun has ended, a continuation that has a result has been called |
| `ThenTheorems.ReadyAndPendingAgree` | include/async_simple/sync/future.hpp:125-221 | For every chain and every order: nothing is set twice, the calls so far are a prefix of those of direct evaluation, the run is finite, and it is complete if and only if nothing can move; then the result and all calls are those of direct evaluation, each once and in order |
| `FutureCollect.FutureCollectTheorem` | include/async_simple/sync/future_helper.hpp:12-51 | For any number of futures, whichever are ready and in whatever order the rest arrive, also between the test and SetContinuation: the collected promise is set at most once, only when all have results, with every result in its place; and it has been set when nothing can move any more |
| `FutureCollect.StepKeepsInv` | include/async_simple/sync/future_helper.hpp:31-49 | The context lives exactly as long as somebody shares it, every handled slot is filled or its continuation is still to run |
| `FutureCollect.ReleaseDelivers` | include/async_simple/sync/future_helper.hpp:34 | When the last shared_ptr dies every slot is filled, so the destructor sets the promise with all results |
| `FutureCollect.CarelessStateBreaksIt` | include/async_simple/sync/future_helper.hpp:34 | If a continuation could die uncalled, a run exists in which the promise is set with an empty slot |
| `FutureCollect.ReadyAtOnce` | include/async_simple/sync/future_helper.hpp:16-29 | If all futures have their results beforehand, no context is ever made and no continuation installed: the future that is returned is ready |
| `FutureCollect.ReadyNeedsNoContinuation` | include/async_simple/sync/future_helper.hpp:41-43 | A future that has its result beforehand is never given a continuation, whatever the others do |
| `FutureCollect.RunsEnd` | include/async_simple/sync/future_helper.hpp:12-51 | Every run ends, within ten steps a future and four more |
| `FutureContract.FutureKeepsItsPromise` | include/async_simple/sync/future_state.hpp:211-251 | The shared state discharges that assumption: every step moves a continuation at most one stage on, installed, called, returned, destroyed, and calls it with the stored result |
| `FutureCollectObject.Collector.Drop` | include/async_simple/sync/future_helper.hpp:34 | A reference dies; the last one delivers the results |
| `FutureCollectObject.Collector.Scan` | include/async_simple/sync/future_helper.hpp:16-18 | One test of all_of is one step of the machine |
| `FutureCollectObject.Collector.Collect` | include/async_simple/sync/future_helper.hpp:40-49 | Each operation of the loop body is one step of the machine |
| `FutureCollectObject.Collector.CollectAll` | include/async_simple/sync/future_helper.hpp:12-51 | The scan and the loop end, with the invariant kept while results arrive and continuations run in between |
| `FutureCollectObject.CollectAll` | include/async_simple/sync/future_helper.hpp:12-51 | Run to the end, the collected promise is set exactly once with all results in order |
| `CoroutineCode.LocalStepMeans` | include/async_simple/coro/lazy.hpp:93-102 | Entering and leaving blocks, tests, returning and throwing keep what direct evaluation of the rest of the body gives |
| `CoroutineCode.AwaitMeans` | include/async_simple/coro/lazy.hpp:55-62 | The rest of a body after an await expression computes, from what the awaited handle comes to under its own or the inherited executor_, what direct evaluation of the whole gives, a failure included |
| `CoroutineCode.DeliverMeans` | include/async_simple/coro/lazy.hpp:104-126 | Binding a value, rethrowing an exception or binding a Try at the await expression keeps that meaning |
| `CoroutineCode.ViaMeans` | include/async_simple/coro/lazy.hpp:247-252 | Via takes the coroutine out of one handle into another with executor_ set, or throws on a moved-from handle; the body means the same |
| `CoroutineHandles.OneHolder` | include/async_simple/coro/lazy.hpp:237-245 | No two variables of any coroutines refer to the same coroutine |
| `CoroutineHandles.MovedKeepsHandles` | include/async_simple/coro/lazy.hpp:245-252 | A move and Via leave the coroutine with the new variable alone, and every other handle as it was |
| `CoroutineHandles.TakeKeepsHandles` | include/async_simple/coro/lazy.hpp:271-282 | An await takes the coroutine out of its variable, and every other handle stays as it was |
| `CoroutineProofs.FinalSuspendKeepsShape` | include/async_simple/coro/lazy.hpp:28-35 | Symmetric transfer finds the continuation suspended and awaiting exactly this coroutine; the chain of frames stays linked |
| `CoroutineProofs.ViaStepKeepsShape` | include/async_simple/coro/via_coroutine.hpp:20-29 | The via coroutine finds the suspended frame it wraps on top: it resumes it at once without an executor or on the worker of its context, queues it for that worker otherwise, or, if the executor refuses, leaves it suspended with nobody to resume it |
| `CoroutineProofs.AwaitResumeDelivers` | include/async_simple/coro/lazy.hpp:155-199 | await_resume hands over the result of the child, and destroys it then, at its final suspend point, for the first and only time, on the value, the exception and the Try path; the via coroutine is destroyed with it |
| `CoroutineTheorems.StepKeepsInv` | include/async_simple/coro/lazy.hpp:28-66 | Every enabled step, whatever executors answer, keeps the chain of frames, the handles, ownership, the context balance and the homes, keeps what the task is heading for, and leaves less to do; it fails only where evaluation does |
| `CoroutineTheorems.NeverCrashes` | include/async_simple/coro/lazy.hpp:155-201 | A run fails only if direct evaluation does and in the same way: Yield or RescheduleLazy under a null executor, or an await through a moved-from handle. No frame is resumed unless suspended, destroyed twice, read without a result or checked in with a null context; the length of a run is bounded by the program |
| `CoroutineTheorems.ComputesEval` | include/async_simple/coro/lazy.hpp:261-267 | Under every choice of workers, threads, foreign awaitables and answers: the callback of Start is called at most once and with the Try of direct evaluation; a run that cannot go on has called it if and only if no Schedule or Checkin was answered false |
| `CoroutineTheorems.CrashesExactly` | include/async_simple/coro/lazy.hpp:40-44 | When no job is refused, a run that cannot go on has failed if and only if direct evaluation reaches a Yield or a RescheduleLazy under a null executor or a moved-from handle, and with that failure |
| `CoroutineTheorems.AlwaysCanContinue` | include/async_simple/coro/lazy.hpp:37-48 | The run can go on exactly until the callback has been called or a job was refused |
| `CoroutineTheorems.OneOwner` | include/async_simple/coro/lazy.hpp:155-201 | In every state of every run a coroutine that is neither destroyed nor leaked has exactly one owner, Start, a suspended awaiter or a variable, and one that is has none |
| `CoroutineTheorems.OwnershipTheorem` | include/async_simple/coro/lazy.hpp:155-282 | A coroutine is destroyed at most once, and not while it is on the stack. Whenever a body runs, every coroutine that was started and is off the stack is gone: a child before its parent leaves the await expression, for a value, a Try or an exception. At the end of the task a coroutine was destroyed, once, if and only if it was awaited or started or its last handle was a Lazy; all others are leaked; all via coroutines are gone. After a refused job the stack stays for ever |
| `CoroutineTheorems.BalanceTheorem` | include/async_simple/coro/via_coroutine.hpp:62-77 | Checkouts minus Checkins is the number of via-wrapped awaits outstanding on a non-null executor, through the ready, declined and resumed-later paths; 0 at the end |
| `CoroutineTheorems.RunsOnItsExecutor` | include/async_simple/coro/lazy.hpp:37-66 | Each segment of every coroutine runs under the executor_ of that coroutine and, if it is not null, on a worker of it |
| `CoroutineTheorems.RunningOnItsExecutor` | include/async_simple/coro/lazy.hpp:37-66 | At every moment the coroutine that is running, or whose await expression is ending, does so on a worker of its executor_, the one its strand was last resumed on |
| `CoroutineTheorems.AffinityTheorem` | include/async_simple/coro/via_coroutine.hpp:20-29 | Two segments of a strand under an executor run on the same worker unless the strand yielded in between |
| `CoroutineTheorems.SegmentsShareStrand` | include/async_simple/coro/lazy.hpp:275-282 | All segments of one coroutine belong to one strand |
| `CoroutineSegments.SegmentsAreRecorded` | include/async_simple/coro/lazy.hpp:28-66 | The trace these theorems speak of is complete and exact: a step of a run that gives a coroutine a thread, by starting, awaiting, resuming or taking it from a queue, records it with its strand, executor_ and thread, a Yield is recorded, and no other step records anything |
| `CoroutineTheorems.WhoMayTakeIt` | include/async_simple/coro/via_coroutine.hpp:69-77 | A queued coroutine may be taken by any worker of its executor if and only if its strand has not run since it last yielded; otherwise only by the worker it last ran on |
| `CoroutineRuns.MovedByItsChild` | include/async_simple/coro/lazy.hpp:37-48 | A concrete run: a coroutine that never yields changes its worker because a child it awaits without Via does |
| `CoroutineRuns.DiscardedRescheduleLeaks` | include/async_simple/coro/lazy.hpp:299-369 | A concrete run: a RescheduleLazy that is dropped, having no destructor, leaves its coroutine undestroyed when the task is over |
| `CoroutineRuns.RefusedYieldIsLost` | include/async_simple/coro/lazy.hpp:40-44 | A concrete run: a Yield answered false, and neither is the coroutine resumed nor the callback called, with the frame undestroyed |
| `CoroutineRuns.YieldNeedsExecutor` | include/async_simple/coro/lazy.hpp:40-44 | A program that begins with Yield fails at once under a null executor_ |
| `CoroutineRuns.UnreachedYieldIsHarmless` | include/async_simple/coro/lazy.hpp:40-44 | A program with a Yield in a handler that is not entered gives its value in every complete run, null executor_ or not |
| `CoroutineOwnership.DropKeepsOwned` | include/async_simple/coro/lazy.hpp:238-243 | The end of a variable destroys the coroutine of a Lazy and leaks that of a RescheduleLazy, which was never started in either case; every other frame keeps its owner |
| `CoroutineOwnership.AwaitResumeKeepsOwned` | include/async_simple/coro/lazy.hpp:159-164 | Taking a child and dropping the awaiter leaves every other frame and via coroutine with its one owner |
| `CoroutineSegments.ForeignTakesItsWay` | include/async_simple/coro/via_coroutine.hpp:95-107 | A ready awaitable and one that declines to suspend let the coroutine go on at once, checking in what was checked out; any other suspends it until the awaitable resumes the via coroutine, with the context checked out |
| `CoroutineOwnership.AwaitForeignKeepsBalance` | include/async_simple/coro/via_coroutine.hpp:95-107 | A declined suspend checks in what it checked out, a ready await does neither, a suspended one stays outstanding |
| `CoroutineAffinity.SegmentKeepsHomes` | include/async_simple/coro/via_coroutine.hpp:20-29 | Resuming a frame on the home of its strand, or anywhere when it has none, keeps every other strand's remembered worker |
| `CoroutineAffinity.AwaitYieldKeepsHomes` | include/async_simple/coro/lazy.hpp:37-48 | Yield makes its own strand homeless and no other |
| `CoroutineRuntime.Coroutines.Create` | include/async_simple/coro/lazy.hpp:52-53 | A coroutine function call allocates one promise object, suspended at its start, held by the new variable alone; the others are untouched |
| `CoroutineRuntime.Coroutines.MoveVariable` | include/async_simple/coro/lazy.hpp:245 | The new variable refers to the coroutine, the old one to nothing |
| `CoroutineRuntime.Coroutines.ViaVariable` | include/async_simple/coro/lazy.hpp:247-252 | Sets executor_ and moves the handle into a RescheduleLazy, or throws logic_error on a moved-from one |
| `CoroutineRuntime.Coroutines.DropVariable` | include/async_simple/coro/lazy.hpp:238-243 | Destroys the coroutine of a Lazy, leaves that of a RescheduleLazy behind, and does nothing for a moved-from handle |
| `CoroutineRuntime.Coroutines.AwaitVariable` | include/async_simple/coro/lazy.hpp:271-282 | Chooses between plain, Try and rescheduling await; a moved-from handle and a null executor_ of a RescheduleLazy are the only failures |
| `CoroutineRuntime.Coroutines.LazyAwaitSuspend` | include/async_simple/coro/lazy.hpp:219-222 | The child inherits executor_, gets this frame as continuation and runs at once |
| `CoroutineRuntime.Coroutines.TryAwaitSuspend` | include/async_simple/coro/lazy.hpp:225-230 | The child keeps the executor_ it has, gets the via coroutine as continuation and runs at once |
| `CoroutineRuntime.Coroutines.GetWrappedContinuation` | include/async_simple/coro/via_coroutine.hpp:69-77 | The via coroutine wraps this frame with the context of the current worker, one Checkout if there is an executor |
| `CoroutineRuntime.Coroutines.RescheduleAwaitSuspend` | include/async_simple/coro/lazy.hpp:308-314 | The child is queued on its own executor with the via coroutine as continuation, or, when the executor refuses, nowhere |
| `CoroutineRuntime.Coroutines.ForeignAwait` | include/async_simple/coro/via_coroutine.hpp:95-107 | The three ways of a foreign awaitable, with their Checkout and Checkin |
| `CoroutineRuntime.Coroutines.YieldAwaitSuspend` | include/async_simple/coro/lazy.hpp:40-44 | The frame goes back to the queue of its executor, or nowhere if it refuses; a null executor_ is the only failure |
| `CoroutineRuntime.Coroutines.FinalAwaitSuspend` | include/async_simple/coro/lazy.hpp:31-33 | Control goes to continuation_ |
| `CoroutineRuntime.Coroutines.ViaFinalAwaitSuspend` | include/async_simple/coro/via_coroutine.hpp:20-29 | Checkin resumes at once on the worker of the context and queues there otherwise, unless it is refused |
| `CoroutineRuntime.Coroutines.AwaitResumeChild` | include/async_simple/coro/lazy.hpp:185-198 | The child is destroyed exactly once: by AwaitResume on the value path, by AwaitResumeTry, and by the destructor of the awaiter when the result throws |
| `CoroutineRuntime.Coroutines.RootResumes` | include/async_simple/coro/lazy.hpp:193-198 | The root frame is destroyed and the callback gets its Try |
| `CoroutineRuntime.Coroutines.Step` | include/async_simple/coro/lazy.hpp:28-66 | One step on the objects: the destiny of the task stays and is nearer by a step, or the step fails as destined |
| `CoroutineRuntime.Start` | include/async_simple/coro/lazy.hpp:261-267 | Driven to the end under arbitrary scheduling, it terminates: with one call of the callback with the Try of direct evaluation, with the failure of direct evaluation, or without a call, which executors that accept every job exclude |
| `CoroutineLaws.ValueIsBound` | include/async_simple/coro/lazy.hpp:185-198 | A value of the child is the value of the await expression, or is held by the Try of it |
| `CoroutineLaws.ExceptionIsRethrown` | include/async_simple/coro/lazy.hpp:104-117 | Awaiting a child for its value rethrows its exception; awaiting its Try throws nothing and holds the exception |
| `CoroutineLaws.RaiseUnwinds` | include/async_simple/coro/lazy.hpp:99-102 | An exception leaves all blocks up to the innermost try, whose handler gets its payload, and ends the coroutine with that exception if there is none |
| `CoroutineLaws.PlainAwait` | include/async_simple/coro/lazy.hpp:275-278 | For every child body: it runs under the executor_ of the parent; if it returns, the parent goes on with the value, if it throws, the parent throws the same, and if it fails, so does the parent |
| `CoroutineLaws.TryAwait` | include/async_simple/coro/lazy.hpp:280-282 | For every child body: it runs under its own executor_, and the parent goes on with a Try of the value or of the exception |
| `CoroutineLaws.ViaAwait` | include/async_simple/coro/lazy.hpp:308-314 | For every child body: it runs under the executor given to Via, and the await fails if and only if that is null or the child fails |
| `CoroutineLaws.MovedAwait` | include/async_simple/coro/lazy.hpp:245 | A moved handle is awaited under its new name, and is null under the old one |
| `CoroutineLaws.ViaOfMoved` | include/async_simple/coro/lazy.hpp:247-250 | Via of a moved-from Lazy throws logic_error |
| `CoroutineLaws.TryMeans` | include/async_simple/coro/lazy.hpp:99-102 | A handler runs if and only if its block throws, with the payload of what it throws; a value of either goes on after the block |
| `CoroutineLaws.CaughtAwait` | include/async_simple/coro/lazy.hpp:104-117 | The exception of a child can be caught where it is awaited |
| `CoroutineLaws.OtherAwaits` | include/async_simple/coro/lazy.hpp:37-62 | A foreign awaitable gives its value or throws its exception; Yield goes on if and only if there is an executor_ |
| `CoroutineLaws.CurrentTells` | include/async_simple/coro/lazy.hpp:59-61 | CurrentExecutor tells all executors apart, the null one included |
| `CoroutineLaws.CallbackGets` | include/async_simple/coro/lazy.hpp:261-267 | When no job is refused, a run that cannot go on has called the callback of Start with a Try that holds what the coroutine returned or the exception it let out |
| `CoroutineLaws.ThrownReachesTheCallback` | include/async_simple/coro/lazy.hpp:104-117 | For every child body that throws and every parent that does not catch it, the callback of Start gets that exception |
| `CollectAllMachine.CollectAllTheorem` | include/async_simple/coro/collect.hpp:114-145 | For any interleaving of the loop, the starts and the callbacks: no party touches the awaiter after its destruction, the count never underflows, the awaiting coroutine is resumed at most once, with every task's result in its slot and after every party is done; each task was launched once and in order, never more than n were in flight and none is when the coroutine is resumed; every run ends |
| `CollectAllMachine.ResumedUnlessLost` | include/async_simple/coro/collect.hpp:132-137 | A run that cannot go on has resumed the awaiting coroutine if and only if no Schedule answered false and lost a task |
| `CollectAllMachine.RefusalLosesTheCoroutine` | include/async_simple/coro/collect.hpp:132-137 | A concrete run of CollectAllPara with one refusal cannot go on and has not resumed it |
| `CollectAllMachine.OnlyParaLoses` | include/async_simple/coro/collect.hpp:132-137 | If every Schedule that is made is accepted, nothing is lost |
| `CollectAllMachine.AllFilled` | include/async_simple/coro/count_event.hpp:23-29 | When the count is 0 every party has counted down and every slot holds its result |
| `CollectAllMachine.StepKeepsInv` | include/async_simple/coro/collect.hpp:114-145 | The count is the number of parties still to come; only the last one takes the handle |
| `CollectAnyMachine.CollectAnyTheorem` | include/async_simple/coro/collect.hpp:50-77 | For any non-empty input and any interleaving: resumed at most once, with the index and value of the one task that counted down first; the count never drops below 1; every run ends and then the coroutine was resumed |
| `CollectAnyMachine.NeedsInput` | include/async_simple/coro/collect.hpp:46-48 | The await fails on its assertion if and only if the input is empty |
| `CollectAnyMachine.LatecomersWriteNothing` | include/async_simple/coro/collect.hpp:62-70 | A party other than the first completer changes neither index nor value and resumes nobody |
| `CollectAnyMachine.StartsAfterResumption` | include/async_simple/coro/collect.hpp:58-61 | After the result was handed over the loop starts the next task if and only if the result is not void |
| `CollectAnyMachine.StartsAnotherTask` | include/async_simple/coro/collect.hpp:58-68 | A concrete run does so |
| `CollectAnyMachine.NeverStarted` | include/async_simple/coro/collect.hpp:54-72 | In every run the coroutines that the loop did not start are, once it is over, destroyed if they are held by Lazy and leaked if they are held by RescheduleLazy; all others were handed to Start |
| `CollectAnyMachine.LeaksTheRest` | include/async_simple/coro/collect.hpp:54-72 | A concrete run that leaks |
| `CollectObjects.CountEvent.constructor` | include/async_simple/coro/count_event.hpp:14 | The counter starts at n + 1, wrap-around included |
| `CollectObjects.CountEvent.DownCount` | include/async_simple/coro/count_event.hpp:30-32 | Returns the count before the subtraction, which wraps around |
| `CollectObjects.CountEvent.TakeAwaitingCoroutine` | include/async_simple/coro/count_event.hpp:26 | Hands out the coroutine once |
| `CollectObjects.CollectAllAwaiter.LaunchNext` | include/async_simple/coro/collect.hpp:118-139 | One turn of the launching loop is one step of the machine |
| `CollectObjects.CollectAllAwaiter.Down` | include/async_simple/coro/count_event.hpp:23-29 | With everybody else moving in between, the caller ends up done, having resumed the coroutine if it was last |
| `CollectObjects.CollectAllAwaiter.AwaitSuspend` | include/async_simple/coro/collect.hpp:114-145 | The loop ends with every task launched and the loop's own Down done, the invariant kept throughout |
| `CollectObjects.CollectAllAwaiter.OnTask` | include/async_simple/coro/collect.hpp:124-130 | The callback stores the result and counts down |
| `CollectObjects.CollectAll` | include/async_simple/coro/collect.hpp:114-146 | Run to the end: all results, in order and once, if nothing was lost, and never a resumption otherwise; something is lost if and only if Para schedules more than one task and the executor refuses one of them; every task launched once, in order, at most all of them in flight and none at the end |
| `CollectObjects.CollectAnyAwaiter.Callback` | include/async_simple/coro/collect.hpp:62-70 | The parts of the callback are steps of the machine |
| `CollectObjects.CollectAnyAwaiter.AwaitSuspend` | include/async_simple/coro/collect.hpp:50-72 | The loop ends, the invariant kept throughout |
| `CollectObjects.CollectAnyAwaiter.DestroyVector` | include/async_simple/coro/collect.hpp:54-72 | At the end of the await_suspend each element that was not started is destroyed, or leaked if it is a RescheduleLazy |
| `CollectObjects.CollectAny` | include/async_simple/coro/collect.hpp:46-77 | Run to the end: one task's result with its index; the assertion of await_resume fails if and only if the input is empty |
| `Windowed.AwaitGroup` | include/async_simple/coro/collect.hpp:219 | A group is launched in order and its results come in order, and when its await is over none of it is in flight; it is never over if and only if Para schedules more than one task and one of these is refused |
| `TaskLog.BoundedAppend` | include/async_simple/coro/collect.hpp:213-222 | Groups run one after the other never have more in flight than one of them |
| `Windowed.CollectAllWindowed` | include/async_simple/coro/collect.hpp:199-228 | The same results as plain CollectAll, each task launched once and in order and moved out once, never more than the window in flight, one Yield after each window of tasks on the looping path, no overflow of start + max_concurrency; it fails to end if and only if the executor refuses a task of a group that Para schedules |
| `Windowed.RunGroup` | include/async_simple/coro/collect.hpp:213-226 | One turn of the loop: the group from start on is taken, awaited and appended, and gives way if asked to; nothing else is moved |
| `Windowed.TakeGroup` | include/async_simple/coro/collect.hpp:215-218 | The next group is exactly the next slice, each element moved for the first time |
| `RoundRobin.RoundRobinOrder` | include/async_simple/coro/collect.hpp:213-226 | On one FIFO worker every batch runs all its groups; r-th groups in order of enqueueing, all of them before any (r+1)-th; every task of every batch is launched once, task i of a batch in round i / max_concurrency, in a round by batches and in order within a batch |
| `RoundRobin.Worker` | include/async_simple/coro/lazy.hpp:37-48 | The queue of yielding batches is served round by round |
| `RoundRobin.RoundsOrdered` | include/async_simple/coro/collect.hpp:213-226 | Concatenated rounds are strictly ordered by round, then batch, and hold exactly the groups there are |
| `RoundRobin.RunAlone` | include/async_simple/coro/collect.hpp:213-226 | The log of the windowed loop falls, at its Yields, into exactly the segments that a batch of the round robin launches turn by turn |
| `CallbackContract.CallsOnce` | include/async_simple/coro/lazy.hpp:261-267 | A step of a started task calls back at most, and then with what the task comes to |
| `CallbackContract.CallbackIsAStep` | include/async_simple/coro/collect.hpp:124-130 | Whatever a started task does is nothing to CollectAll, or the one step by which its party stores the result called back with |
| `CallbackContract.CallbackIsAStepOfAny` | include/async_simple/coro/collect.hpp:62-70 | The same for CollectAny, where the party counts down |
| `PoolContract.StageMoves` | include/async_simple/util/thread_pool.hpp:45-115 | A step of the pool moves an item at most one stage on: accepted, taken by a worker, the one it is pinned to if any, run by that worker |
| `PoolContract.StepIsAllowed` | include/async_simple/util/thread_pool.hpp:45-115 | Every step of the pool is, for the job of a shared state, nothing or a step that the machine of the shared state allows an executor: a job is begun once, after it was accepted, and never if it was rejected |
| `PoolContract.AnswerIsAllowed` | include/async_simple/util/thread_pool.hpp:45-69 | So are its answers: true for what it has accepted, false for what it has rejected |
| `PoolContract.AcceptedHasRun` | include/async_simple/util/thread_pool.hpp:35-43 | A job that was accepted has run when the workers are joined, if no submission straddled the destructor |
| `ThreadPoolTheorems.ConservationTheorem` | include/async_simple/util/thread_pool.hpp:45-69 | Every accepted item is queued, held or executed, as often as accepted, and that is once; each queue is FIFO; every submission is in flight, accepted or rejected |
| `ThreadPoolTheorems.DrainTheorem` | include/async_simple/util/thread_pool.hpp:35-43 | If no submission straddled the setting of stop_, every accepted item has run exactly once when all workers are joined, and the queues are empty |
| `ThreadPoolTheorems.RestTheorem` | include/async_simple/util/thread_pool.hpp:93-115 | While the destructor has not begun nothing is refused, and when nothing can happen any more but a new submission or the destructor, every job submitted has been executed, exactly once |
| `ThreadPoolTheorems.LateTheorem` | include/async_simple/util/thread_pool.hpp:50-66 | When all workers are joined an accepted item was not run if and only if it was pushed, by a straddling submission, after the worker of its queue had left and is still there; for an item that must not be stolen, if and only if it was pushed that late |
| `ThreadPoolTheorems.LateItemMayBeStolen` | include/async_simple/util/thread_pool.hpp:99-106 | For an item that may be stolen the time of the push does not decide: two runs push it at the same point, and it runs in one and not in the other |
| `ThreadPoolTheorems.RejectedNeverRuns` | include/async_simple/util/thread_pool.hpp:47-52 | A submission answered with an error is never run |
| `ThreadPoolTheorems.PinTheorem` | include/async_simple/util/thread_pool.hpp:64-67 | An item submitted for worker w is run by w and nobody else, also with stealing enabled |
| `ThreadPoolTheorems.ShutdownNeverStuck` | include/async_simple/util/thread_pool.hpp:35-43 | While the destructor waits, some step other than a submission is possible |
| `ThreadPoolTheorems.ShutdownEnds` | include/async_simple/util/thread_pool.hpp:93-115 | Every such step leaves less to do |
| `ThreadPoolTheorems.LandingFails` | include/async_simple/util/thread_pool.hpp:64-67 | A push fails if and only if its id is no worker's or the pool has been destroyed, which takes a straddling submission |
| `ThreadPoolTheorems.StraddlingJobIsLost` | include/async_simple/util/thread_pool.hpp:50-66 | A concrete run in which an accepted job is never executed |
| `ThreadPoolProofs.StepKeepsInv` | include/async_simple/util/thread_pool.hpp:93-115 | One step of a submitter, a worker or the destructor keeps conservation, order, pinning and numbering; a worker that has left was stopped and its queue held nothing that was not late |
| `ThreadPoolObject.ThreadsafeQueue.Push` | include/async_simple/container/threadsafe_queue.hpp:15-21 | Appends at the end |
| `ThreadPoolObject.ThreadsafeQueue.TryPush` | include/async_simple/container/threadsafe_queue.hpp:22-30 | Appends at the end if and only if the lock is free, and else leaves the queue alone |
| `ThreadPoolObject.ThreadsafeQueue.Pop` | include/async_simple/container/threadsafe_queue.hpp:32-43 | The front item, or nothing exactly when the queue is empty |
| `ThreadPoolObject.ThreadsafeQueue.TryPopIf` | include/async_simple/container/threadsafe_queue.hpp:55-66 | Takes the front item if and only if the lock is free and that item satisfies the predicate; otherwise the queue is unchanged |
| `ThreadPoolObject.ThreadPool.ScheduleById` | include/async_simple/util/thread_pool.hpp:45-69 | Errors leave every queue alone; otherwise exactly one queue gains the item at its end: the named one for a pinned item, and for any other, which alone may be stolen, the first whose lock is found free in two rounds if stealing is enabled, and the one rand() says if not or if none is |
| `ThreadPoolObject.ThreadPool.TakeItem` | include/async_simple/util/thread_pool.hpp:97-110 | Exactly one item leaves the front of one queue: of the one to steal from, if stealing is enabled and there is one, and else of the own queue; none when that is empty, which blocks if and only if it is not stopped |
| `ThreadPoolObject.ThreadPool.Steal` | include/async_simple/util/thread_pool.hpp:99-106 | Stealing takes the front item of the first queue, in two rounds from the own one on, whose lock is free and whose front may be stolen, nothing if and only if there is none, and leaves all else alone |
| `ThreadPoolObject.ThreadPool.WorkerThreadMain` | include/async_simple/util/thread_pool.hpp:93-115 | While nothing new comes in it ends with the own queue empty, having returned if that is stopped and blocked in Pop if not; what left the queues is what was run, and without stealing that is the own queue in order |
| `ThreadPoolObject.ThreadPool.Destroy` | include/async_simple/util/thread_pool.hpp:35-43 | The pool and all queues are stopped, the queues are empty, and every item has been run as often as it was queued |
| `SimpleExecutorModel.OnlyTheContextBit` | include/async_simple/executor/simple_executor.hpp:11 | Tagging and untagging are the bitwise operations with the mask: only that bit changes |
| `SimpleExecutorModel.ContextRoundTrip` | include/async_simple/executor/simple_executor.hpp:34-39 | The context of a worker is never null and leads back to it if and only if its id leaves the context bit free, as ids below 2^30 do |
| `SimpleExecutorModel.OutsiderDoesNotRoundTrip` | include/async_simple/executor/simple_executor.hpp:34-45 | A context taken outside the pool never runs inline and names no worker, so giving it back fails |
| `SimpleExecutorModel.PinningTheorem` | include/async_simple/executor/simple_executor.hpp:34-45 | With at most 2^30 workers a job checked in with the context of worker w runs inline if and only if it is prompt and the thread is w, and otherwise it is run by w alone |

## Left out

- Which executor a chained future inherits (`include/async_simple/sync/future.hpp:165-168`, `175`, `208`) and which thread runs a callback: when a continuation runs is left open, so any thread may.
- A callback of a chain chooses among finitely many chains, by tests on the values it has captured; a future that holds an empty Try is not a source.
- The construction of a chain inside a callback is one step; the outermost chain is built step by step while callbacks run.
- Wait: says nothing about how long it blocks; `Blocked` stands for a result that nobody has set yet. On a forced state it stops after `SetExecutor(nullptr)`, with the proof that no call can come.
- `Future::Get` and `Future::Result`: an accessor and its error paths.
- Coroutine bodies are programs over integers with tests, return, throw, try blocks, local handles and awaits. They have no loops, do not pass handles to one another, and end no variable before its block; `LazyAwaiterBase` objects are not moved. The result of a foreign awaitable is an expression of the body: as each place of a program is passed at most once in a run, a run whose results somebody else chooses is a run of the program with these results written in, and the theorems hold for all programs.
- `SyncAwait` is `Start` with a semaphore, and `Detach` rethrows out of the detached coroutine.
- A coroutine awaiting the `Schedule()` or `ScheduleAfter` of another executor, and `Lazy::SetExecutor`, which leave the executor-affinity fragment; executors whose `Checkout` returns the null context.
- The executor that `CollectAll` and `CollectAny` pass to children without one, and the variadic overloads with `MakeWrapperTask`.
- The inputs of the collect combinators are given by their results, and an executor that refuses a job of a task keeps that task from calling back.
- The worker of the round-robin theorem serves batches as jobs that launch a segment per turn; that a turn ends at a Yield of the coroutine machine is not linked to it. Its tasks complete synchronously.
- The reads of `executor_` within the condition of line 214 are one step, as are those of the submission.
- `ThreadPool` as an object is sequential apart from failing locks and the choice of a queue; its interleavings are in the machine. A standalone `ThreadsafeQueue` leaves `stop_` uninitialized; inside the vector of the pool it is false.
- Linux AIO, timers, sleeping, `ExecutorStat`, allocators, memory orders weaker than sequential consistency, exceptions escaping a callback of a continuation.
