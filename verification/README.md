# Rayo: the dispatch scheduler, the JSON writer and shutdown

Rayo answers HTTP requests by running Python handlers on its own scheduler, a
hand-written replacement for `asyncio.Task`. This project models that scheduler
(`crates/dispatch`), the JSON writer (`crates/schema`) and the shutdown protocol
(`crates/core`), and proves what their comments claim of whole runs.

## How it is built

Python is an explicit environment. Every reply of Python to the scheduler, failures
included, is an input; every call the scheduler makes is an effect in an ordered log;
what Python code does to a task while a coroutine runs or is closed is a list of
operations. Nothing is assumed about either beyond what a lemma's `requires` says.
What the model takes of asyncio itself is its queue and its futures, and `LoopEffects` says
what that amounts to: the queue is first in, first out (`LoopEffects.EntryMovesUp`), a future
ends once and stays so (`LoopEffects.EndingStays`), wakes its waiters in order
(`LoopEffects.OutsideSettles`), and what code on the loop does takes effect
(`LoopEffects.ActsTakeEffect`).

| layer | files |
|---|---|
| one task: state, what a turn does case by case, cancellation, done callbacks, what it reports | `TaskMachine`, `TaskProperties`, `TaskTurns`, `TaskPieces`, `TaskCancellation`, `TaskCallbacks`, `TaskHistory` |
| the task object, updated in place, which never leaves the runs of that machine | `HandlerTask` |
| many tasks on an open loop: wake-ups, queue and futures, what a turn is entered with, queued cancels, progress | `LoopMachine`, `Wakeups`, `LoopEffects`, `Deliveries`, `QueuedCancels`, `Progress` |
| one loop under concurrency: `schedule`, loop thread, `stop`s, interleaved at lock regions and atomics | `Protocol`, `ProtocolSafety`, `ProtocolRace`, `ProtocolRelease`, `ProtocolSharing`, `ProtocolFinish`, `ProtocolProgress`, `ProtocolWitnesses`, `TaskProtocol` |
| the loop object and the server object | `EventLoop`, `Server` |
| `shutdown_impl` over a pool of loops, any number of callers | `Shutdown`, `ShutdownOrder`, `ShutdownProgress` |
| least-loaded placement | `Placement`, `PlacementRuns` |
| JSON: UTF-8, an RFC 8259 reader, the writer, the round trip, size and errors, responses | `Utf8`, `JsonParser`, `JsonWriter`, `JsonRoundTrip`, `JsonShape`, `Responses` |

The views are tied together: whatever is called on a `HandlerTasks.HandlerTask`, its state
and log stay those of a run of `TaskMachine`, `LoopMachine.TurnProjects` shows that in a crowd each task
still behaves as that machine, `TaskProtocol.FinishAgrees` that the atomic pieces of
`finish` are the calls of the machine's `Finish`, and the event loop object never leaves
the reachable states of `Protocol`.

## Where the code and its comments part

Each point names the condition under which the claim holds, "exactly" where it is an
if-and-only-if, and a run outside it.

- "After `stop` every task is finished" is not so for a request that never reached the
  loop. When every call is over the unfinished tasks are exactly those never allocated,
  those refused with no drain between their insertion and their being taken back, and
  those stranded because closing the loop failed (`ProtocolFinish.UnfinishedExactly`,
  `ProtocolWitnesses.RefusedStaysUnfinished`).
- "Always resolves the returned request" fails when closing the loop fails: a loop that
  is dead but not closed still accepts callbacks, and a request listed after the last
  drain is never answered (`ProtocolRace.StrandedExactly`,
  `ProtocolWitnesses.CloseFailureStrands`).
- "Release the response last" can fail exactly when the loop thread and a `stop` come to
  share a task that is not complete while its sender is there
  (`ProtocolRelease.ReleasedLast`, `ProtocolSharing.EarlyReleaseExactly`). Two overlapping
  `stop`s bring that about (`ProtocolWitnesses.OverlapReleasesEarly`), callers one after the
  other never do (`ProtocolRelease.InTurnIsNeverEarly`).
- "In-flight requests get `grace_seconds`" fails exactly when, after the waiting call has taken
  the receiver, another call comes past it (`ShutdownOrder.GraceSkippedExactly`,
  `Shutdown.SecondCallerSkipsGrace`).
- `cancel_requests` is a `u32`. Call by call, the counter is what the history says exactly
  as long as it does not wrap, and a cancellation is owed with none counted exactly after a
  `cancel` that wraps it and is not absorbed, or finds the flag set
  (`TaskCancellation.RunCountExactly`, `TaskCancellation.WrappedCounterLosesCount`).
- `scan_start + scan_offset` wraps: the scan sees every loop once exactly when it does
  not, or the number of loops divides 2^64 (`Placement.RotationVisitsEachOnce`).
- "Least loaded" keeps every load within the even share exactly as long as placements are
  made one at a time. With `m` under way at once, in any order, a load exceeds it by at
  most `m - 1` (`PlacementRuns.ConcurrencyBound`), two at once are enough to exceed it
  (`PlacementRuns.TwoAtOnceOverload`), and more pile up further
  (`PlacementRuns.ConcurrentPlacementsOverload`).

The comment at crates/dispatch/src/lib.rs:749-750 says that a deferred error overrides a
wake's, and the code lets the wake's win; in no run do the two meet
(`Deliveries.PrecedenceIsMoot`).

## Model

| member | source | states |
|---|---|---|
| `TaskProperties.RunKeepsRep` | crates/dispatch/src/lib.rs:187-213 | every reachable task state is well formed: coroutine and context together, registered only while started and unfinished, at most one outcome, none before the end |
| `TaskProperties.TurnAdvancesOrFinishes` | crates/dispatch/src/lib.rs:767-779 | the defensive return of a turn is unreachable: a turn of an unfinished task advances the coroutine or ends the task |
| `TaskProperties.FinishedForGood` | crates/dispatch/src/lib.rs:291-315 | once finished, no event changes the outcome, and a wake that reaches the task does nothing |
| `TaskHistory.AccessorsTellHistory` | crates/dispatch/src/lib.rs:923-963 | over every run a task ends at most once, is finished exactly if it has ended, and both accessors report that ending |
| `TaskHistory.ToldForGood` | crates/dispatch/src/lib.rs:291-315 | once a run has ended the task, no continuation adds an ending, and both accessors report the same for ever |
| `TaskHistory.ResponseFitsEnding` | crates/dispatch/src/lib.rs:284-349 | over every run the first response sent is the one its one ending calls for |
| `TaskProperties.TurnIsBalanced` | crates/dispatch/src/lib.rs:781-831 | every turn leaves current task and context as found, advances at most once, and does so inside both |
| `TaskTurns.EverythingInItsPlace` | crates/dispatch/src/lib.rs:767-831 | over every run, in order: the handler is called outside, task and context are entered and left like brackets, and the coroutine is advanced inside both |
| `TaskTurns.TurnAdvancesExactly` | crates/dispatch/src/lib.rs:715-765 | the one advance of a turn, exactly, or none: a cancellation that is owed with the last `cancel`'s message unless the error at hand is one, else the waking future's error, else the deferred error, else a send |
| `TaskTurns.TurnReportsExactly` | crates/dispatch/src/lib.rs:386-644 | for every way a turn can go, the completion recorded and the response sent, in order and in full: a returned value with its own response, a `CancelledError` as cancelled, any other error as raised, the failures before the advance each with the 500, and nothing when the task goes on |
| `TaskTurns.TurnLeavesExactly` | crates/dispatch/src/lib.rs:499-562 | the state a turn that goes on leaves: as the code left it, holding the one error that says what was wrong with the yield, or waiting on the future with a cancellation still owed unless absorbed |
| `TaskCancellation.NextTurnDelivers` | crates/dispatch/src/lib.rs:715-765 | with a cancellation owed, the next turn throws `CancelledError`, or ends an unstarted task cancelled without calling its handler, or never advances and finishes |
| `TaskCancellation.OwedIsDelivered` | crates/dispatch/src/lib.rs:836-876 | that survives any calls in between unless an `uncancel` reaches zero |
| `TaskCancellation.MidStepCancelKept` | crates/dispatch/src/lib.rs:669-702 | a cancellation that lands while the coroutine runs is still owed afterwards, or the future just parked on absorbed it, or the task is finished |
| `TaskCancellation.CancelExactly` | crates/dispatch/src/lib.rs:836-866 | what a `cancel` changes, counts, asks and owes, in every case |
| `TaskCancellation.CancelBookkeeping` | crates/dispatch/src/lib.rs:836-880 | over every run without wrap-around `cancelling()` is the fold of the cancel/uncancel history, and a cancellation owed is counted |
| `TaskCancellation.CounterRightExactly` | crates/dispatch/src/lib.rs:836-847 | for every history, call by call: the counter equals the fold throughout if and only if it never passes what a `u32` holds |
| `TaskCancellation.OwedUncountedExactly` | crates/dispatch/src/lib.rs:836-876 | a cancellation is owed with none counted at some point if and only if some `cancel` wraps the counter and is not absorbed, or finds the flag set already |
| `TaskCancellation.RunCountExactly` | crates/dispatch/src/lib.rs:836-880 | both, for every run of a task from its creation |
| `TaskCancellation.SaturatingIsGuarded` | crates/dispatch/src/lib.rs:869-876 | the saturating `uncancel` is the guarded one exactly when no flag stands without a count, which every such run keeps |
| `TaskCancellation.WrappedCounterLosesCount` | crates/dispatch/src/lib.rs:836-847 | after 2^32 requests a cancellation is owed with none counted |
| `TaskCallbacks.CallbacksConserved` | crates/dispatch/src/lib.rs:311-347 | over every run each accepted callback is pending, removed or handed on, exactly once in all and in order; a finished task has none pending |
| `TaskCallbacks.AddExactly` | crates/dispatch/src/lib.rs:968-1009 | an added callback is the last one pending, or handed on at once by a finished task, or refused |
| `TaskCallbacks.RemoveExactly` | crates/dispatch/src/lib.rs:1011-1020 | every equal callback goes and no other, the rest in order |
| `TaskCallbacks.EndsOnceResponseLast` | crates/dispatch/src/lib.rs:279-349 | a task ends once, in order: off the live list, out of asyncio, callbacks, response; nothing of it before, no registry left after |
| `TaskCallbacks.RegistrationFollowsCalls` | crates/dispatch/src/lib.rs:319-327 | over every run a task is unregistered from asyncio only while registered, and a finished one has been |
| `HandlerTasks.HandlerTask.Finish` | crates/dispatch/src/lib.rs:284-349 | the object's `finish` is the machine's: outcome, registries, each callback in order, response |
| `HandlerTasks.HandlerTask.HandOver` | crates/dispatch/src/lib.rs:329-347 | the loop over the callbacks hands every one to `call_soon` in registration order |
| `HandlerTasks.HandlerTask.CloseCoroutineQuietly` | crates/dispatch/src/lib.rs:354-367 | closes a coroutine if there is one, whatever its cleanup does to the task |
| `HandlerTasks.HandlerTask.Abandon` | crates/dispatch/src/lib.rs:788-796 | close and finish with nothing to show, as every failed turn ends |
| `HandlerTasks.HandlerTask.Dispose` | crates/dispatch/src/lib.rs:371-379 | closes and finishes as an internal error; the object stays in a run of the machine |
| `HandlerTasks.HandlerTask.Start` | crates/dispatch/src/lib.rs:386-443 | leaves a coroutine to step, registered if asyncio agreed, or finishes the task |
| `HandlerTasks.HandlerTask.ParkOnFuture` | crates/dispatch/src/lib.rs:499-562 | the outcome for every combination of replies, in both directions, and what a parked task waits on |
| `HandlerTasks.HandlerTask.StepOnce` | crates/dispatch/src/lib.rs:569-644 | one advance and the disposal of its outcome are the machine's |
| `HandlerTasks.HandlerTask.HandleYield` | crates/dispatch/src/lib.rs:626-641 | what becomes of a yielded object: parked, deferred error and next turn, or abandoned |
| `HandlerTasks.HandlerTask.RescheduleOrAbort` | crates/dispatch/src/lib.rs:648-664 | queues the next turn, or abandons the task when the loop refuses |
| `HandlerTasks.HandlerTask.ApplyCancelRequestedMidStep` | crates/dispatch/src/lib.rs:669-702 | re-applies a cancellation to the future just parked on, spending the flag only if absorbed |
| `HandlerTasks.HandlerTask.Claim` | crates/dispatch/src/lib.rs:715-731 | the first lock region takes flag, message and deferred error, clears them and `waiting_on` |
| `HandlerTasks.HandlerTask.Resume` | crates/dispatch/src/lib.rs:767-831 | the rest of a turn, with every failure of entering, is the machine's |
| `HandlerTasks.HandlerTask.Call` | crates/dispatch/src/lib.rs:711-831 | a whole `__call__` is the machine's `Turn`, in state and in the order of its calls; the object stays in a run of the machine |
| `HandlerTasks.HandlerTask.Cancel` | crates/dispatch/src/lib.rs:836-866 | counts the request, lets the awaited future absorb it, else sets the flag; false exactly on a finished task |
| `HandlerTasks.HandlerTask.Uncancel` | crates/dispatch/src/lib.rs:869-876 | saturating decrement that clears the flag at zero |
| `HandlerTasks.HandlerTask.AddDoneCallback` | crates/dispatch/src/lib.rs:968-1009 | kept while unfinished, handed on at once when finished; succeeds unless copying the context or that `call_soon` fails |
| `HandlerTasks.HandlerTask.RemoveDoneCallback` | crates/dispatch/src/lib.rs:1011-1020 | removes exactly the equal ones, keeps the order of the rest, returns how many went |
| `HandlerTasks.HandlerTask.Result` | crates/dispatch/src/lib.rs:923-943 | after any history the completion in the log, of which there is at most one; running before it |
| `HandlerTasks.HandlerTask.Exception` | crates/dispatch/src/lib.rs:946-963 | likewise |
| `LoopMachine.TurnProjects` | crates/dispatch/src/lib.rs:711-831 | among any tasks, a task's turn on the loop is its own `Turn`, given the calls other code made on it |
| `Wakeups.TurnKeeps` | crates/dispatch/src/lib.rs:711-831 | a turn consumes the wake that ran it and leaves exactly one, unless it finishes the task |
| `Wakeups.ExactlyOneWake` | crates/dispatch/src/lib.rs:499-664 | in every state of every run each unfinished task owns exactly one outstanding wake, in the queue or as its done-callback on `waiting_on` |
| `Deliveries.EntriesTell` | crates/dispatch/src/lib.rs:711-733 | the queue entries of an unfinished task carry what it waits on: nothing, or one future, which has ended |
| `Deliveries.DeferredWakesBare` | crates/dispatch/src/lib.rs:628-631 | a task that holds a deferred error waits on nothing and its one wake is a bare queue entry |
| `Deliveries.PrecedenceIsMoot` | crates/dispatch/src/lib.rs:749-757 | at every turn of every run a deferred error and a wake's error never meet, so the turn throws the deferred one if there is one, the wake's if there is one, whichever goes first |
| `Deliveries.WaitsUntilItsTurn` | crates/dispatch/src/lib.rs:722-731 | until its next turn an unfinished task stays unfinished and waits as it did |
| `Deliveries.FutureDelivers` | crates/dispatch/src/lib.rs:733-765 | over every run the next turn of a task that waits on a future throws what that future ended with, or sends if that was no error, a cancellation that is owed going first; or it cannot advance and finishes |
| `Deliveries.DeferredIsThrown` | crates/dispatch/src/lib.rs:749-765 | over every run a deferred error is thrown by the next turn, a cancellation that is owed going first; or it cannot advance and finishes |
| `Deliveries.CallbacksAreQueued` | crates/dispatch/src/lib.rs:329-347 | over every run a turn that finishes its task leaves its done callbacks at the end of the queue, in order, failed `call_soon`s aside |
| `Deliveries.CancelLands` | crates/dispatch/src/lib.rs:846-857 | a cancel absorbed at once ends the awaited future cancelled and leaves the task waiting on it |
| `Deliveries.AwaitedCancelIsThrown` | crates/dispatch/src/lib.rs:753-765 | in particular, if that future ended cancelled the turn throws `CancelledError`, or finishes without advancing |
| `QueuedCancels.ChangesByCalls` | crates/dispatch/src/lib.rs:836-876 | over every run a task changes between its turns by the calls made on it, in order, and by nothing else |
| `QueuedCancels.UncancelledGetsResult` | crates/dispatch/src/lib.rs:733-765 | so a task that nobody cancels while it waits gets what its future ended with |
| `QueuedCancels.UncancelledIsStarted` | crates/dispatch/src/lib.rs:386-443 | and a request that nobody cancels before its task's first turn has its handler called by that turn, and its coroutine sent into if it can be |
| `QueuedCancels.QueuedCancelRuns` | crates/dispatch/src/lib.rs:1190-1209 | a `cancel` queued on the loop runs once the callbacks queued before it have |
| `QueuedCancels.QueuedCancelLands` | crates/dispatch/src/lib.rs:836-866 | when it runs on an unfinished task it is counted, and owed unless the awaited future absorbs it, which then ends cancelled |
| `QueuedCancels.QueuedCancelIsDelivered` | crates/dispatch/src/lib.rs:836-876 | over every run the next turn of that task throws `CancelledError`, or ends it without advancing, or is entered with the future that absorbed the cancel; unless an `uncancel` reaches zero first |
| `QueuedCancels.AbsorbedCancelDelivered` | crates/dispatch/src/lib.rs:846-857 | in that last case the turn delivers if that future ended cancelled, as one that absorbs at once does |
| `Progress.HeadProgresses` | crates/dispatch/src/lib.rs:711-831 | running any callback, whatever fails, strictly lowers the measure of coroutine ranks, queued and parked wakes, and unfired callbacks |
| `Progress.WorkIsBounded` | crates/dispatch/src/lib.rs:569-664 | the work of any run is bounded by what was there and what requests and cancels brought in |
| `Progress.LoopDrains` | crates/dispatch/src/lib.rs:386-443 | from any run, under every choice by coroutines, callbacks, failing calls and completing futures that keeps to finite code, the loop gets to idle within the measure, every task finished |
| `Progress.CoroutinesDrain` | crates/dispatch/src/lib.rs:569-664 | in particular for any answers of the coroutines on the loop, with parked futures completing in any order |
| `Progress.FairExists` | crates/dispatch/src/lib.rs:569-664 | the premise of both can be met: a loop that is not idle always has work it can do |
| `ProtocolRace.GaugeConserved` | crates/dispatch/src/lib.rs:121-155 | at every atomic step the gauge is the counted-in schedules without channel, the channels with a sender, and the senders taken but not counted out; so it never underflows |
| `ProtocolRace.AnsweredAtMostOnce` | crates/dispatch/src/lib.rs:126-155 | no channel answers twice across `finish`, disposal, refused `schedule` and `Drop`; an armed channel's task is always reachable |
| `ProtocolRace.AnswerHasSender` | crates/dispatch/src/lib.rs:126-155 | over every run a request holds an answer if and only if a step sent it that one: a turn's `finish` on the loop thread, a disposal, its own refused `schedule`, or `Drop` |
| `ProtocolRace.RaceSettles` | crates/dispatch/src/lib.rs:1213-1250 | for any interleaving and any number of `stop`s: once they returned on a closed loop, every returned `schedule`'s request is answered exactly once and unregistered, accepted ones by finishing |
| `ProtocolRace.RaceLeavesNothing` | crates/dispatch/src/lib.rs:1128-1186 | with every call over, the registry is empty and the gauge zero |
| `ProtocolRace.ShutOutIsAnswered` | crates/dispatch/src/lib.rs:1172-1181 | a refused `schedule` on a closed loop is answered and uncounted when it returns |
| `ProtocolRace.LateScheduleRefused` | crates/dispatch/src/lib.rs:1167-1181 | every request counted in after the close is refused in every later state |
| `ProtocolRace.StrandedExactly` | crates/dispatch/src/lib.rs:1161-1171 | a request is left unanswered exactly when it was accepted and listed after the last drain, and only if closing the loop failed |
| `ProtocolRelease.ReleasedLast` | crates/dispatch/src/lib.rs:279-349 | unless the loop thread and a `stop` have come to share the task while it was not complete and its sender there: whenever `finish` has taken the sender the task is finished, unlisted, unregistered (or that was tried), and its callbacks are removed or handed on |
| `ProtocolSharing.SharingReleasesEarly` | crates/dispatch/src/lib.rs:291-296 | from every such shared state, finished or not, a continuation lets the response out before the task is complete |
| `ProtocolSharing.EarlyReleaseExactly` | crates/dispatch/src/lib.rs:279-349 | after any run in which the task was not shared, some continuation releases its response early if and only if some continuation makes the two share it |
| `ProtocolRelease.ReleasedLastUnlessEarly` | crates/dispatch/src/lib.rs:1213-1249 | so responses are released last as long as no `stop` drains a live loop |
| `ProtocolRelease.FinishedByOne` | crates/dispatch/src/lib.rs:291-296 | unless a `stop` drained a live loop no two threads have the same task and the early branch of `finish` is not taken |
| `ProtocolRelease.InTurnIsNeverEarly` | crates/dispatch/src/lib.rs:1213-1240 | `stop` calls one after the other never drain a live loop |
| `ProtocolFinish.UnfinishedExactly` | crates/dispatch/src/lib.rs:1167-1181 | with every call over, a request is unfinished if and only if it was never allocated, or was refused with no drain between its insertion and its being taken back, or was accepted and listed after the last drain, which a closed loop rules out |
| `ProtocolProgress.EveryCallReturns` | crates/dispatch/src/lib.rs:1128-1250 | termination: from any point of any run the calls under way do no more steps than a measure of what is left, however they are interleaved, and when none of it can go on every `schedule` and every `stop` has returned |
| `ProtocolProgress.CallsCanReturn` | crates/dispatch/src/lib.rs:1213-1250 | no deadlock: every run has a continuation in which every call has returned |
| `ProtocolWitnesses.CloseFailureStrands` | crates/dispatch/src/lib.rs:1098-1103 | a run in which closing fails and a later accepted request is never answered |
| `ProtocolWitnesses.RefusedStaysUnfinished` | crates/dispatch/src/lib.rs:1172-1181 | a run that ends with a request answered by a refusal and never finished |
| `ProtocolWitnesses.OverlapReleasesEarly` | crates/dispatch/src/lib.rs:1213-1245 | two overlapping `stop`s bring an early release about |
| `TaskProtocol.FinishAgrees` | crates/dispatch/src/lib.rs:284-349 | the atomic pieces of `finish`, run alone, make the machine's calls in order and leave task and request in agreement |
| `EventLoops.EventLoop.Schedule` | crates/dispatch/src/lib.rs:1128-1186 | accepted: listed, counted, armed; failed: answered, and registry and gauge as before; unfinished either way |
| `EventLoops.EventLoop.Dispatch` | crates/dispatch/src/lib.rs:1161-1185 | listed and queued, or taken back and answered with the gauge lowered |
| `EventLoops.EventLoop.SendRefusal` | crates/dispatch/src/lib.rs:127-142 | take, count out, deliver, as three protocol steps |
| `EventLoops.EventLoop.DropChannel` | crates/dispatch/src/lib.rs:145-155 | a channel dropped with its sender is counted out once |
| `EventLoops.EventLoop.CancelInFlight` | crates/dispatch/src/lib.rs:1190-1209 | queues one cancel for every live task, refusals aside |
| `EventLoops.EventLoop.Send` | crates/dispatch/src/lib.rs:127-142 | the sender is gone afterwards, whoever had it, and nothing but that request changed |
| `EventLoops.EventLoop.Finish` | crates/dispatch/src/lib.rs:284-349 | the bookkeeping of `finish` piece by piece: finished, off the registry, sender gone |
| `EventLoops.EventLoop.HandOver` | crates/dispatch/src/lib.rs:319-347 | unregisters if registered and hands on exactly the callbacks taken |
| `EventLoops.EventLoop.Dispose` | crates/dispatch/src/lib.rs:1246-1249 | a drained task ends finished and answered |
| `EventLoops.EventLoop.JoinLoop` | crates/dispatch/src/lib.rs:1214-1239 | the call that wins the handle ends the loop and joins; a later one finds it dead |
| `EventLoops.EventLoop.Stop` | crates/dispatch/src/lib.rs:1213-1250 | the loop is dead, the registry empty, every task that was live finished with its sender gone, all others untouched |
| `Placement.RotationVisitsEachOnce` | crates/dispatch/src/lib.rs:1356-1371 | a scan visits each loop once if and only if the sum does not wrap or the pool size divides 2^64 |
| `Placement.PowersOfTwoAlwaysRotate` | crates/dispatch/src/lib.rs:1364-1364 | powers of two satisfy that for every start |
| `Placement.Scan` | crates/dispatch/src/lib.rs:1356-1371 | the early-exit scan finds the first minimum in rotation order, which is a least-loaded loop |
| `Placement.EventLoopPool.Start` | crates/dispatch/src/lib.rs:1323-1338 | a pool of no loops is refused, any other starts idle |
| `Placement.EventLoopPool.Schedule` | crates/dispatch/src/lib.rs:1350-1372 | the first minimum in rotation order is chosen, its gauge goes up, nothing else, and the start advances, wrapping |
| `PlacementRuns.PlacementBound` | crates/dispatch/src/lib.rs:1350-1372 | placements one at a time, completions anywhere, even inside a scan: no load exceeds the peak total shared evenly and rounded up |
| `PlacementRuns.OvertakingBound` | crates/dispatch/src/lib.rs:1350-1372 | any interleaving of any number of placements: one more for each placement that can land during a scan |
| `PlacementRuns.ConcurrencyBound` | crates/dispatch/src/lib.rs:1350-1372 | with at most `m` under way at once, in any order and with completions anywhere, `m - 1` more |
| `PlacementRuns.SpreadBound` | crates/dispatch/src/lib.rs:1350-1372 | without completions, with at most `m` under way at once in any order, no loop carries more than `m` above another |
| `PlacementRuns.EvenSpread` | crates/dispatch/src/lib.rs:1350-1372 | without completions, one at a time, every load is the total over the loops, rounded down or up |
| `PlacementRuns.RestingPlacementsSpread` | crates/dispatch/src/lib.rs:1355-1362 | as many placements as loops, each completing before the next, hit distinct loops |
| `PlacementRuns.UndisturbedPlacement` | crates/dispatch/src/lib.rs:1356-1371 | a placement that nothing disturbs chooses the first minimum in rotation order, as `Placement.Scan` does |
| `PlacementRuns.ConcurrentPlacementsOverload` | crates/dispatch/src/lib.rs:1356-1371 | for every `m` a run from an idle pool, with `m` scans open at once, that puts `m` requests on one loop and one on the other |
| `PlacementRuns.TwoAtOnceOverload` | crates/dispatch/src/lib.rs:1356-1371 | a run with never more than two under way in which a loop exceeds the even share of the peak |
| `Shutdown.CancelsOnlyAfterTimeout` | crates/core/src/lib.rs:303-332 | with any number of callers, a call cancels only after its own first drain timed out |
| `ShutdownOrder.OneCallWaits` | crates/core/src/lib.rs:296-303 | with any number of callers exactly one ever drains or cancels |
| `ShutdownOrder.SignalledFirst` | crates/core/src/lib.rs:294-296 | with any number of callers, none goes on before shutdown is signalled |
| `ShutdownOrder.EveryLoopAsked` | crates/core/src/lib.rs:316-332 | between a call's drain that timed out and its second one, the live tasks of every loop are asked to cancel |
| `ShutdownOrder.LoopsStopLast` | crates/core/src/lib.rs:294-336 | callers one after the other, `Drop` included: no loop is told to stop while a call waits, nor before the first call's drain is over |
| `ShutdownOrder.GraceSkippedExactly` | crates/core/src/lib.rs:296-335 | while a call waits, loops come to be stopped if and only if another call passed the receiver after it |
| `Shutdown.ShutdownResolves` | crates/core/src/lib.rs:294-336 | when every call has returned and a loop was closed, each returned `schedule`'s request there is answered once, accepted ones are finished, and at rest registry and gauge are empty |
| `ShutdownProgress.EveryShutdownReturns` | crates/core/src/lib.rs:294-336 | termination, for any number of callers over any loops: the calls under way do no more steps than a measure of what is left, however the drains go, and when none of it can go on every call has returned |
| `ShutdownProgress.ShutdownsCanReturn` | crates/core/src/lib.rs:294-336 | no deadlock: every run can go on until every call has returned |
| `ShutdownProgress.DrainsEitherWay` | crates/core/src/lib.rs:309-332 | a call that is draining may always turn to stopping the loops, or run out of time and go on through the cancellation to its second drain |
| `Shutdown.ClientSeesTurn` | crates/core/src/lib.rs:183-194 | the client sees what a turn sent as it is, and the opaque 500 for every other answer |
| `Shutdown.LateRequestsGet500` | crates/core/src/lib.rs:183-194 | a request that comes after the close is answered once, the client sees the opaque 500, and the gauge is as before |
| `Shutdown.ReleasedLast` | crates/core/src/lib.rs:340-386 | with callers one after the other, responses are released last on every loop in every state |
| `Shutdown.SecondCallerSkipsGrace` | crates/core/src/lib.rs:296-335 | a run in which a second caller stops a loop while the first still drains |
| `Servers.Server.ShutdownImpl` | crates/core/src/lib.rs:294-336 | what is logged and in which order: the signal, then for the caller with the receiver the drain, and if that ran out one cancellation for each loop and the second drain, then the stop of each loop; who was asked to cancel; every loop dead with an empty registry at return |
| `Servers.Server.CancelAll` | crates/dispatch/src/lib.rs:1375-1379 | every loop in order, each live task asked once, refusals aside |
| `Servers.Server.StopAll` | crates/dispatch/src/lib.rs:1383-1387 | every loop in order, each dead with an empty registry |
| `JsonWriter.WriteJsonString` | crates/schema/src/lib.rs:92-112 | only appends, and appends the escaped form |
| `JsonWriter.WriteJson` | crates/schema/src/lib.rs:19-72 | only appends; bytes and error are those of the value |
| `JsonWriter.WriteJsonSequence` | crates/schema/src/lib.rs:75-88 | the loop with its separators writes the list form, or stops at the first error |
| `JsonWriter.WriteJsonEntry` | crates/schema/src/lib.rs:50-58 | one key, which must be a string, a colon and its value |
| `JsonWriter.WriteJsonEntries` | crates/schema/src/lib.rs:42-60 | the dict branch with its `first_entry` flag |
| `JsonRoundTrip.WritesExactlySerializable` | crates/schema/src/lib.rs:19-88 | the writer succeeds exactly when every leaf and key is serializable |
| `JsonRoundTrip.StringRoundTrip` | crates/schema/src/lib.rs:92-112 | a written string followed by anything reads back as itself and what followed |
| `JsonRoundTrip.StringFraming` | crates/schema/src/lib.rs:92-112 | no raw control byte, and the first unescaped quote is the closing one |
| `JsonRoundTrip.ValueRoundTrip` | crates/schema/src/lib.rs:19-88 | every serializable tree followed by any suffix that does not extend a number reads back as the tree and the suffix |
| `JsonShape.Compact` | crates/schema/src/lib.rs:19-112 | no byte beyond the tokens: no whitespace, no longer escape or number than needed |
| `JsonShape.LowerCaseHex` | crates/schema/src/lib.rs:100-104 | the digits of a control's escape are lower-case |
| `JsonShape.ReportsFirstError` | crates/schema/src/lib.rs:19-88 | the error is that of the first thing in writing order that has no JSON form |
| `Utf8.DecodeEncode` | crates/schema/src/lib.rs:105-108 | a scalar encoded as in section 3 of RFC 3629 decodes to itself and the rest |
| `Utf8.EncodeDecode` | crates/schema/src/lib.rs:105-108 | and only that encoding decodes to it |
| `Responses.ResponseFromReturnValue` | crates/dispatch/src/lib.rs:85-108 | the buffer-and-branch code sends the response that `Responses.NoPartialBody` pins down, whatever the writer reports |
| `Responses.NoPartialBody` | crates/dispatch/src/lib.rs:74-115 | none is an empty 204, a string its text as plain text, any other serializable value JSON that reads back whole, anything else the opaque 500 |
| `Responses.OpaqueError` | crates/dispatch/src/lib.rs:66-72 | status, type and text of the opaque 500 |
| `Responses.MessageSays` | crates/core/src/lib.rs:53-122 | the message for each kind of parameter |
| `Responses.ValidationErrorResponse` | crates/core/src/lib.rs:110-130 | every 422 body reads back as an object with the exact message |

## Left out

- `crates/server` and `crates/router`: network plumbing and a wrapper over a radix tree that is not part of this model.
- `python/rayo`, `build_kwargs`, `convert_and_insert` and the synchronous path: parsing by standard libraries and one-branch facts.
- The wall clock: the two drain waits are free choices.
- Reference counting, `__traverse__`, the free list, task names and thread names: no bearing on the results.
- Which digits a float prints: a float is its decimal text; the round trip is of that text.
- Self-referential containers: values are finite trees.
- A future whose `cancel` calls back into the same task, and user code that calls a task as a function.
- A `call_soon` that reports an error is taken to have queued nothing.
- The panic of a debug build on overflow: additions wrap, as in release builds.
- Python code that touches a task from another thread than its loop's: the interleaved layer covers it for callbacks only.
- The size of `in_flight`: a gauge of 2^64 open requests does not occur.
- HandlerTasks.HandlerTask.Cancel: without the second look at `finished` after the future's own `cancel`, which only matters if that call runs the task itself.
- EventLoops.EventLoop.Stop: for a caller nobody interferes with; `Protocol` has the interleavings.
- Servers.Server.ShutdownImpl: likewise for one undisturbed caller; `Shutdown` has the interleavings.
- Placement.EventLoopPool.Schedule: one undisturbed placement; `PlacementRuns` has all interleavings.
- PlacementRuns.OvertakingBound: while the scan start does not wrap or the pool size divides 2^64, like the bounds that follow from it.
- Progress.LoopDrains: for coroutines and callbacks of finite rank, which is the premise of any such claim.
