# arriero-backend core, modelled in Dafny

This project models the control core of the arriero observatory backend:

- the **state store**: a snapshot of the observatory's global status, its action labels, its messages and its device states, owned by one `StateManager`;
- the per-device **connection supervisor** (`Arriero`): a health worker that polls an updater and reconnects with a capped exponential backoff;
- the **safety gate** (`require_conditions`, `safety_override`) and the two **safety conditions** (`weather_is_safe`, `dome_is_open`);
- one tick of the **safety watchdog** (`observatory_loop`);
- the cooperative **execution engine**: execution contexts, lifecycle hooks, and the run protocol of tasks, sequences and parallel groups;
- the **sequence registry** and the **action registry**.

Modules, one per source file:

| module | file | source |
|---|---|---|
| `Common` | common.dfy | `Option`, `Result`, `Outcome`, `Min` |
| `State` | state.dfy | observatory/state.py |
| `Supervisor` | arriero.dfy | arriero/arriero.py |
| `Safety` | safety.dfy | observatory/safety.py |
| `SafetyConditions` | safety_conditions.dfy | observatory/safety_conditions.py |
| `StatusLoop` | status.dfy | observatory/status.py |
| `Engine` | engine.dfy | observatory/observation_engine.py |
| `Sequences` | sequence_registry.dfy | observatory/sequence_registry.py |
| `Actions` | action_registry.dfy | observatory/action_registry.py |

Objects whose fields the source updates in place are classes:

- `StateManager`
- `Arriero`
- `ExecutionContext`
- `Lifecycle`
- `SequenceRegistry`
- `ActionRegistry`

Each of their state-changing methods states its whole new state, in terms of a pure function or datatype value where one exists.

The parts that only compute are functions over datatypes, with lemmas about them:

- the supervisor's loop step (`Supervisor.Step`, `Supervisor.RunSpec`);
- the watchdog tick (`StatusLoop.TickSpec`);
- the gate's observatory resolution;
- the conditions;
- the engine's run protocol (`Engine.Run`).

Collaborators the core only calls are oracles:

- the device factory and updater of a supervisor: `Supervisor.Tick`, one per loop iteration;
- every hook, `when` predicate and task action in the engine: a stream of `Engine.Reply` values, with an exhausted stream answering "returned true" (`Engine.Env` holds the stream and the abort schedule; the run's state keeps its position in it);
- the moment an execution context's abort becomes visible: an abort schedule over a logical clock that each checkpoint advances;
- the random context ids: a sequence of draws, each required to have the shape `Engine.GenerateContextId` produces.

The engine's run is a pure function from a node tree and these oracles to an event trace: every hook, predicate and action call in order, plus one event per one-second slice of a delay. The run has three stages:

- `Engine.Loop`: the `repeat` iterations.
- `Engine.Iteration`: one iteration. `Engine.Prelude` is the checkpoint, the delay and the `when` predicates. `Engine.Main` is the `before` hooks, the body and the `after` hooks, with the checkpoints the source places between them.
- `Engine.Guarded`: the `except Exception` / `finally` frame around the iterations.

Checkpoints are placed exactly where each node kind has them. A parallel group has no checkpoint after its delay and none after its `before` hooks.

Errors are classified the way the source's exception classes are:

- an `Exception`;
- a `BaseException` that is not one (the observatory errors, including `StateError`);
- the graceful cancellation, an `asyncio.CancelledError`.

This matters in several places:

- `on_error` hooks run for an `Exception` only.
- A parallel group's task group ignores children that end cancelled.
- A supervisor's `except Exception` lets a `StateError` through to its own handler.

## Model

| member | source | states |
|---|---|---|
| `Common.Min` | arriero/arriero.py:66 | the minimum of two integers: no larger than either and equal to one of them |
| `State.RemoveFirst` | observatory/state.py:144-149 | `list.remove` with the error swallowed: a list without the label is unchanged; otherwise it is one shorter |
| `State.RemoveFirstMultiset` | observatory/state.py:144-149 | removal takes away exactly one copy of the label, when there is one, and nothing else (multiset difference) |
| `State.IndexOf` | observatory/state.py:147 | the position of the first occurrence: it holds the element and no earlier position does |
| `State.RemoveFirstSplices` | observatory/state.py:144-149 | removal cuts out exactly the first occurrence and keeps the order of everything else |
| `State.RemoveFirstAppend` | observatory/state.py:140-149 | removing a label that already occurs commutes with appending; removing a label that does not occur undoes appending it |
| `State.AddThenRemoveAction` | observatory/state.py:140-149 | adding and then removing an action label restores the multiset of labels, and restores the list exactly when the label was not there before |
| `State.StateManager.constructor` | observatory/state.py:116-119 | a new store holds the empty snapshot: schema version 1, status stopped, no actions, no messages, no devices |
| `State.StateManager.AddDevice` | observatory/state.py:121-125 | an id already present fails with a duplicate error and changes nothing; otherwise the device is stored under its id; status, actions and messages are untouched |
| `State.StateManager.RemoveDevice` | observatory/state.py:127-131 | an absent id fails with not-found; otherwise the id is removed; nothing else changes |
| `State.StateManager.GetDevice` | observatory/state.py:133-138 | the stored device for a present id (carrying that id), a not-found error exactly when the id is absent |
| `State.StateManager.AddAction` | observatory/state.py:140-142 | the label is appended at the end, duplicates allowed; nothing else changes |
| `State.StateManager.RemoveAction` | observatory/state.py:144-149 | the first occurrence of the label is removed, a missing label is ignored; nothing else changes |
| `State.StateManager.SetMessage` | observatory/state.py:151-153 | the message id maps to the text; nothing else changes |
| `State.StateManager.ClearMessage` | observatory/state.py:155-157 | the message id is removed whether or not it was present; nothing else changes |
| `State.StateManager.SetStatus` | observatory/state.py:159-161 | the global status is set; nothing else changes |
| `State.StateManager.TakeSnapshot` | observatory/state.py:163-165 | the snapshot equals the store's current contents as a value |
| `State.SnapshotIsolation` | observatory/state.py:163-165 | a snapshot taken before later updates keeps its earlier contents while the store moves on |
| `State.DeviceLifecycle` | observatory/state.py:121-138 | add then get returns the device, a second add fails, remove then get is not-found, and the device map ends as it began |
| `Supervisor.NextBackoff` | arriero/arriero.py:66 | `min(2b, 60)` stays within 1..60 and never shrinks a backoff in that range |
| `Supervisor.UpdateStep` | arriero/arriero.py:71-87 | the updater half of an iteration keeps the backoff within 1..60 and leaves the stop signal alone |
| `Supervisor.Step` | arriero/arriero.py:59-87 | one worker iteration keeps the backoff within 1..60 and leaves the stop signal alone; a live worker is marked exited exactly when the iteration ends with it dying; the worker dies exactly when an `ObservatoryError` escapes, from the factory while reconnecting or from the updater; every sleep is the poll time or lies within 1..60 seconds |
| `Supervisor.RunSpec` | arriero/arriero.py:59-87 | the loop makes at most one sleep per iteration and keeps the backoff within 1..60 |
| `Supervisor.BackoffScheduleFromOne` | arriero/arriero.py:23-24 | growing from 1 gives 1, 2, 4, 8, 16, 32, then 60 for ever |
| `Supervisor.BackoffAfterDoubles` | arriero/arriero.py:87 | k growths from a backoff b in 1..60 give b doubled k times, capped at 60 |
| `Supervisor.BackoffAfterShift` | arriero/arriero.py:87 | k growths from b give `min(b * 2^k, 60)` |
| `Supervisor.RepeatedUpdaterFailures` | arriero/arriero.py:81-87 | under repeated updater exceptions, iteration i sleeps the backoff grown i times; the handle ends absent, the loop unhealthy and still running |
| `Supervisor.BackoffSequence` | arriero/arriero.py:81-87 | from a backoff of 1, the waits under repeated updater failures are 1, 2, 4, 8, 16, 32, 60, 60, ... |
| `Supervisor.UnreachableWaitIsConstant` | arriero/arriero.py:63-68 | while the factory keeps failing, every wait is `min(2 * backoff, 60)` and the supervisor's state never changes |
| `Supervisor.RecoveryResetsBackoff` | arriero/arriero.py:71-76 | the first successful poll after failures marks the loop healthy and resets the backoff, so the next failure waits 1 second |
| `Supervisor.ObservatoryErrorEndsWorker` | arriero/arriero.py:59-87 | an `ObservatoryError` from the factory or the updater escapes both handlers: the loop ends at that iteration with the worker exited and the backoff unchanged, whatever iterations would follow |
| `Supervisor.FactoryStateErrorWaitsPoll` | arriero/arriero.py:62-80 | a `StateError` from the factory while reconnecting waits the poll time and changes nothing |
| `Supervisor.StateErrorKeepsConnection` | arriero/arriero.py:78-80 | a state error from the updater keeps handle and backoff and waits the poll time |
| `Supervisor.Arriero.constructor` | arriero/arriero.py:13-29 | a new supervisor has no handle, backoff 1, no worker and the stop signal clear |
| `Supervisor.Arriero.Alpaca` | arriero/arriero.py:31-35 | the handle when present; otherwise exactly the "Alpaca device is not connected" error |
| `Supervisor.Arriero.IsRunning` | arriero/arriero.py:89-90 | true exactly while the worker is alive |
| `Supervisor.Arriero.Create` | arriero/arriero.py:37-49 | a no-op while the worker is alive; otherwise the factory's handle (absent after an ordinary exception), the stop signal cleared and a fresh live worker; an observatory error escapes before any change |
| `Supervisor.Arriero.Destroy` | arriero/arriero.py:51-57 | the stop signal is set and both the worker and the handle are dropped |
| `Supervisor.Arriero.Reconnect` | arriero/arriero.py:92-99 | the handle becomes the factory's result, or absent after an ordinary exception; an observatory error escapes and leaves the handle alone |
| `Supervisor.Arriero.RunOnce` | arriero/arriero.py:59-87 | one worker iteration moves the object's state and produces the wait exactly as `Step` does |
| `Supervisor.Arriero.Run` | arriero/arriero.py:59-87 | the worker loop ends in the state and with the waits `RunSpec` gives |
| `Supervisor.SleepCoop` | arriero/arriero.py:101-107 | sleeps the whole duration unless the stop signal is seen first; every slice but the last is 0.2 s and the last at most 0.2 s, so the time slept fixes the slice count; the sleep ends only when the duration is slept or the stop signal is seen; a non-positive duration does not sleep |
| `Safety.ResolveObservatory` | observatory/safety.py:18-25 | a truthy `observatory` keyword wins; otherwise the first positional argument when it is an observatory, or its observatory when it is a device |
| `Safety.ConditionArgs` | observatory/safety.py:34-40 | a condition gets exactly the keywords it declares, plus the resolved observatory if it declares one |
| `Safety.Guard` | observatory/safety.py:14-50 | override skips all checks and runs the operation with the `override` keyword removed from its arguments; no observatory gives 500 before any check; otherwise checks run in order, fail-fast with 403 and the first failing reason; the operation runs only if all pass |
| `Safety.Lower` | observatory/safety.py:100 | character-wise ASCII lower-casing of the header |
| `Safety.OverrideRequested` | observatory/safety.py:15 | a missing `override` keyword, or one holding None, False, 0 or an empty string, requests no override; True requests it |
| `Safety.SafetyOverride` | observatory/safety.py:97-100 | a missing header never grants the override; a granted one is a four-letter header |
| `Safety.SafetyOverrideIff` | observatory/safety.py:97-100 | the override header is granted exactly for "true" in any letter case; a missing or empty header never grants it |
| `SafetyConditions.WeatherIsSafe` | observatory/safety_conditions.py:7-24 | safe exactly when the first configured monitor is in the store and reports `safe is True`; no monitors and a missing monitor give their own reasons |
| `SafetyConditions.WeatherIgnoresLaterMonitors` | observatory/safety_conditions.py:11-22 | only the first configured monitor is consulted |
| `SafetyConditions.DomeIsOpen` | observatory/safety_conditions.py:27-47 | open exactly when the named (or first) dome is configured, stored and reports shutter status 0; each failure has its own reason |
| `SafetyConditions.DomeNotOpenReason` | observatory/safety_conditions.py:40-43 | a shutter other than 0 is reported with its status |
| `StatusLoop.Threshold` | observatory/status.py:9 | five per configured monitor, or five with none |
| `StatusLoop.Adjust` | observatory/status.py:20-31 | one monitor raises the counter exactly when it reports `safe is False`; a found monitor reporting safe or not reporting at all lowers it by one, never below zero; a monitor the store does not know, or a device without a `safe` field, leaves it |
| `StatusLoop.Tick` | observatory/status.py:14-36 | the counter after visiting every monitor; shutdown is invoked exactly when the counter reaches the threshold; the counter moves by at most one per monitor |
| `StatusLoop.TickSpec` | observatory/status.py:20-31 | visiting the monitors moves the counter by at most one per monitor, up or down |
| `StatusLoop.AllUnsafeAddsMonitorCount` | observatory/status.py:24-26 | when all monitors report unsafe the counter rises by their number |
| `StatusLoop.MissingMonitorsLeaveCounter` | observatory/status.py:30-31 | monitors the store does not know leave the counter |
| `StatusLoop.Ticks` | observatory/status.py:11-37 | one shutdown decision per tick, with the shutdown call taken to return |
| `StatusLoop.UnanimousUnsafeShutsDownFromFifthTick` | observatory/status.py:9-37 | with every monitor unsafe on every tick, shutdown is first invoked on the fifth tick and on every later tick |
| `StatusLoop.UnanimousFrom` | observatory/status.py:9-37 | the same schedule starting from any multiple of the monitor count |
| `StatusLoop.NoMonitorsNeverShutDown` | observatory/status.py:9-37 | with no monitors configured, shutdown is never invoked from a counter below five |
| `Engine.GenerateContextId` | observatory/observation_engine.py:10-12 | twelve characters, each a lower-case ASCII letter or a digit |
| `Engine.ExecutionContext.constructor` | observatory/observation_engine.py:15-19 | a new context has its gate open and abort clear |
| `Engine.ExecutionContext.RequestPause` | observatory/observation_engine.py:21-22 | closes the gate and leaves abort alone |
| `Engine.ExecutionContext.Resume` | observatory/observation_engine.py:24-25 | opens the gate and leaves abort alone |
| `Engine.ExecutionContext.Abort` | observatory/observation_engine.py:27-28 | sets abort, which no method clears |
| `Engine.ExecutionContext.GateIsSet` | observatory/observation_engine.py:30-31 | whether the gate is open |
| `Engine.ExecutionContext.Checkpoint` | observatory/observation_engine.py:33-40 | a set abort cancels whatever the gate; otherwise a closed gate suspends and an open one proceeds |
| `Engine.Lifecycle.constructor` | observatory/observation_engine.py:53-62 | delay 0, repeat 1, every hook list empty |
| `Engine.Lifecycle.AddHook` | observatory/observation_engine.py:82-86 | extends exactly the named list; "delay" and "repeat" fail (an int has no `extend`); a name outside the seven attributes fails, and exactly those fail, as an invalid hook type; a failure changes nothing |
| `Engine.Lifecycle.HooksOf` | observatory/observation_engine.py:88-90 | `before`, `after`, `when`, `on_error` and `finally` each give their own list; nothing for an unknown name; an error for the numeric entries |
| `Engine.RunHooks` | observatory/observation_engine.py:88-94 | the hooks only append to the trace, consume at most one reply each, and take no time |
| `Engine.Invoke` | observatory/observation_engine.py:91-94 | a call is recorded and answered by the next reply |
| `Engine.Checkpoint` | observatory/observation_engine.py:33-40 | raises the cancellation exactly once the context's abort is visible; always advances the clock |
| `Engine.HooksRun` | observatory/observation_engine.py:88-94 | at most all the hooks run; fewer only when the last one that ran raised |
| `Engine.HooksStopAtFirstRaise` | observatory/observation_engine.py:88-94 | every hook before the last one that runs returned; the last one raised exactly when some hook of the list raises |
| `Engine.RunHooksInOrder` | observatory/observation_engine.py:88-94 | hooks run in insertion order and stop at the first that raises; that error propagates; every hook before it ran exactly once |
| `Engine.RunHooksState` | observatory/observation_engine.py:88-94 | the trace gains exactly the calls of the hooks that ran, in order; each consumes one reply; no time passes |
| `Engine.RunHooksEnd` | observatory/observation_engine.py:88-94 | the hooks end in an error exactly when one of them raises, and with that error |
| `Engine.Slices` | observatory/observation_engine.py:42-49 | no slice for a duration of zero or less; otherwise `int(duration)`, the whole seconds it contains |
| `Engine.SleepSlices` | observatory/observation_engine.py:42-49 | sleeps at most the given number of one-second slices, only slices, and never raises; with no abort every slice is slept |
| `Engine.SleepEndsAtFirstAbort` | observatory/observation_engine.py:42-49 | an abort first visible after slice j ends the sleep after exactly j + 1 slices |
| `Engine.AskWhen` | observatory/observation_engine.py:136-141 | every predicate is called in order; the verdict exists exactly when none raises and holds exactly when all are truthy |
| `Engine.ResolveKind` | observatory/observation_engine.py:296-298 | "auto" becomes "async" for a coroutine function and "sync" otherwise; other kinds stay |
| `Engine.Exec` | observatory/observation_engine.py:295-311 | the action is called for async, sync and cpu; any other kind raises a RuntimeError without calling it |
| `Engine.Join` | observatory/observation_engine.py:211-216 | the joined children raise nothing exactly when each ended normally or cancelled; a base exception group exactly when one ended in a non-Exception error |
| `Engine.Run` | observatory/observation_engine.py:127-161 | a node's run only moves its state forward: events appended, replies consumed forward, the clock never turned back |
| `Engine.Guarded` | observatory/observation_engine.py:155-161 | the `except` / `finally` frame moves the state forward, and an error end never turns into a normal end |
| `Engine.OnErrorStage` | observatory/observation_engine.py:155-157 | the `except Exception` stage always ends in an error and moves the state forward |
| `Engine.FinallyStage` | observatory/observation_engine.py:158-161 | the `finally` stage moves the state forward and keeps an error end an error |
| `Engine.Loop` | observatory/observation_engine.py:130-154 | the iterations move the state forward |
| `Engine.Iteration` | observatory/observation_engine.py:130-154 | an iteration moves the state forward and always advances the clock (its first checkpoint) |
| `Engine.Prelude` | observatory/observation_engine.py:131-141 | the checkpoint, delay and predicates move the state forward and advance the clock |
| `Engine.Main` | observatory/observation_engine.py:142-154 | the main part moves the state forward and advances the clock |
| `Engine.Body` | observatory/observation_engine.py:127-227 | a task's action, a sequence's steps or a group's children move the state forward |
| `Engine.Steps` | observatory/observation_engine.py:146-150 | the remaining steps move the state forward; with a step left, the clock advances |
| `Engine.StepFailureStopsSequence` | observatory/observation_engine.py:146-150 | a step that fails after an unaborted checkpoint ends the sequence in exactly its failure |
| `Engine.StepsFollowChain` | observatory/observation_engine.py:146-150 | the steps run strictly in order, each from the state the previous one left |
| `Engine.StepsAllContinue` | observatory/observation_engine.py:146-150 | when every step carries on, the sequence carries on from the last step's state |
| `Engine.StepsStopAtFailingStep` | observatory/observation_engine.py:146-150 | when the steps before j carry on and step j fails, the sequence ends in step j's failure and no later step runs |
| `Engine.Children` | observatory/observation_engine.py:211-216 | one end per child, in order, and the state moves forward |
| `Engine.OnErrorStageEffect` | observatory/observation_engine.py:155-157 | the `on_error` hooks that run add their calls; the stage ends in the error of the last one if it raised, otherwise in the Exception being handled |
| `Engine.FinallyStageEffect` | observatory/observation_engine.py:158-161 | the `finally` hooks that run add their calls; when they all return the end being handled is kept, otherwise the last hook's error replaces it |
| `Engine.GuardedPassThrough` | observatory/observation_engine.py:155-161 | after a normal end, a cancellation or another base exception only the `finally` hooks run, and the end propagates unless one of them raises |
| `Engine.GuardedOnError` | observatory/observation_engine.py:155-161 | after an Exception, `on_error` runs and then `finally`; the error raised last by a hook, or else the Exception, propagates |
| `Engine.GuardedProtocol` | observatory/observation_engine.py:155-161 | `on_error` runs only after an Exception, never after a cancellation or another base exception; `finally` always runs, last; when those hooks return, the original end propagates unchanged |
| `Engine.AbortBeforeStartRunsOnlyFinally` | observatory/observation_engine.py:127-161 | a node aborted before it starts makes no call but its `finally` hooks, and ends cancelled unless one of them raises, in which case it ends in that hook's error |
| `Engine.WhenFalseSkipsIteration` | observatory/observation_engine.py:136-141 | an iteration whose predicates do not all hold adds only its sleep slices and the predicate calls, and the loop goes on |
| `Engine.AbortDuringDelay` | observatory/observation_engine.py:131-135 | in a task or a sequence (the task's run repeats these lines at 317-321), an abort during the delay ends the sleep quietly after one slice, and the checkpoint after the delay cancels before any predicate is called |
| `Engine.AbortDuringGroupDelay` | observatory/observation_engine.py:198-205 | in a parallel group, an abort during the delay ends the sleep quietly after one slice, and with no checkpoint there the group still calls every `when` predicate |
| `Engine.AbortedChildrenAreAbsorbed` | observatory/observation_engine.py:211-217 | a parallel group whose children were all aborted before starting absorbs their cancellations, makes no call for them and carries on |
| `Engine.AbortedSiblingIsAbsorbed` | observatory/observation_engine.py:211-216 | in a group of two whose first child was aborted before it started, that child's cancellation is absorbed and the group ends as its second child's end alone decides: normally, in a base exception group, or in an exception group |
| `Engine.CancelledChildren` | observatory/observation_engine.py:211-216 | children aborted before they start, with no `finally` hooks, all end cancelled and add nothing to the trace |
| `Engine.ExposureRun` | observatory/observation_engine.py:313-346 | a plain task makes one action call, and the action's reply decides how that task ends |
| `Engine.MainUnaborted` | observatory/observation_engine.py:142-154 | under a context that is never aborted, checkpoints only advance the clock |
| `Engine.PlainPrelude` | observatory/observation_engine.py:131-141 | with no delay and no predicates an iteration goes straight to its main part |
| `Engine.SingleStepBody` | observatory/observation_engine.py:146-150 | a one-step sequence body is that step's run after one checkpoint |
| `Engine.MainAllContinue` | observatory/observation_engine.py:142-154 | under a context never aborted, a main part whose `before` hooks, body and `after` hooks all carry on ends after them with one more checkpoint |
| `Engine.ObservingPrelude` | observatory/observation_engine.py:131-141 | the observing sequence, with no delay and no predicates, goes straight to its main part |
| `Engine.ObservingBody` | observatory/observation_engine.py:142-150 | the observing sequence's `before` hook is called, then its one step, the exposure, whose reply decides how the body ends |
| `Engine.ObservingMain` | observatory/observation_engine.py:142-154 | a main part whose calls all return calls `before`, the step and `after`, in order |
| `Engine.ObservingMainFails` | observatory/observation_engine.py:142-154 | a main part whose step raises ends in that error before `after` |
| `Engine.ObservingIteration` | observatory/observation_engine.py:130-154 | an iteration whose calls all return calls `before`, the step and `after`, in order |
| `Engine.ObservingIterationFails` | observatory/observation_engine.py:130-154 | an iteration whose step raises ends in that error after `before` and the step, before `after` |
| `Engine.ObservingLoop` | observatory/observation_engine.py:130-154 | k successful iterations each call `before`, the step and `after`, in order |
| `Engine.ObservingLoopFails` | observatory/observation_engine.py:130-154 | a step failing in iteration j: earlier iterations complete, `after` is skipped in it, no later iteration starts |
| `Engine.RepeatRunsHooksPerIterationAndFinallyOnce` | observatory/observation_engine.py:127-161 | with repeat = r and every call returning: `before` and `after` run r times each around r step runs, then `finally` once; `on_error` never runs |
| `Engine.FailureInIterationRunsOnErrorThenFinally` | observatory/observation_engine.py:127-161 | with repeat = r and the step raising an Exception in iteration j: earlier iterations complete, then `on_error` once, `finally` once, and the Exception propagates |
| `Sequences.ActionLabel` | observatory/sequence_registry.py:24 | the label is "Sequence: " followed by the sequence name |
| `Sequences.SequenceRegistry.constructor` | observatory/sequence_registry.py:9-11 | no builders and no running sequences |
| `Sequences.SequenceRegistry.AddSequence` | observatory/sequence_registry.py:13-14 | the builder is registered under its own name, replacing one of the same name |
| `Sequences.SequenceRegistry.RunSequence` | observatory/sequence_registry.py:16-35 | the id kept is the first draw not already registered; it is registered with the builder's name and a fresh context whose gate is open and abort clear; no other entry changes |
| `Sequences.SequenceRegistry.Runner` | observatory/sequence_registry.py:23-31 | whatever the run's end, the registry entry is deleted and the action label removed, so the labels' multiset is restored; the run's end is the build error or the sequence's run; a missing entry makes the cleanup raise a KeyError, which replaces the run's end (the run's events stay) and leaves the label |
| `Actions.ActionRegistry.constructor` | observatory/action_registry.py:4 | the table starts empty |
| `Actions.ActionRegistry.Register` | observatory/action_registry.py:6-12 | the name maps to the function, replacing an earlier one, and the function is returned unchanged |
| `Actions.ActionRegistry.GetAction` | observatory/action_registry.py:14-18 | the registered callable, or "Unknown action: <name>" exactly when the name is absent |
| `Actions.RegisterThenLookUp` | observatory/action_registry.py:6-18 | a lookup after registering finds the function; lookups of other names are unchanged |

## Left out

- Threads, locks, asyncio scheduling and wall-clock time.
  - Each store operation is one atomic step.
  - The supervisor's worker is a state (absent, alive, exited) and each loop iteration is one step.
  - Sleeps are recorded as durations, or as one event per slice.
- Pausing: a closed gate only delays a checkpoint. The class models it (`ExecutionContext.Checkpoint` suspends), but the run semantics has no pause, since a pause changes no trace.
- Concurrency inside a parallel group: the children run one after another in list order and all run to their end. The `TaskGroup` cancellation of siblings after a failure is not modelled, nor any other interleaving.
- Engine.AskWhen: the `when` predicates are gathered; when several raise, the model propagates the first in list order, while the source propagates the first to finish.
- A task's timeout (`asyncio.wait_for`) and the thread or executor a sync or cpu action runs on: an action's outcome, timeout included, is one reply.
- Supervisor.Arriero.Destroy: the 2-second join timeout is not modelled. A worker that outlives it can keep running beside the next `create`'s worker; the model treats the join as always completing.
- Floating-point device fields (coordinates, temperatures, weather readings, switch ranges) are left out of the device states. So are pydantic validation, JSON serialisation (`snapshot_json`) and `update_key` on device states.
- Safety.Lower: ASCII lower-casing only. Python's `str.lower` maps no other character onto the letters of "true", so the verdict is the same.
- The HTTP wiring of the safety gate (FastAPI exceptions and headers): modelled as a `GateResult`. The synchronous and asynchronous wrappers share one model, since they differ only in how a coroutine condition's result is awaited.
- `Observatory.emergency_shutdown` is not part of this model. The watchdog tick reports whether it is invoked. The sleep between ticks is not modelled.
- StatusLoop.Ticks: the model treats the shutdown call as returning, so the loop goes on to later ticks. The source's `Observatory` class (observatory/observatory.py:39-58) defines no `emergency_shutdown` method. The loop as written would therefore raise an AttributeError at the first tick that reaches the threshold, and end there. `StatusLoop.UnanimousUnsafeShutsDownFromFifthTick` relies on the same assumption for its "every later tick".
- Sequence builders' `build` and the `Observatory` object: a build's result is a parameter of the runner (`Built` or `BuildFailed`).
- String renderings (`__str__`) of lifecycles, sequences, groups and tasks, and all `print` output.
- Sequences.SequenceRegistry.RunSequence: the random id draws are a parameter. One of them must be unused; the source instead loops until its generator produces one.
- State.StateManager.GetDevice: the model returns the stored device as a value. The source returns the live object, and the safety-monitor and camera updaters (`arriero/updaters/safety_monitor.py`, `arriero/updaters/camera.py`) write its fields in place through it. The model has no such write path: a device changes only through the store's own operations.
- Hook actions are called without their coroutine/plain distinction: either way the call's outcome is one reply.
- Engine.AskWhen: `when` predicates are taken to be coroutine functions. In the source each predicate is called while the arguments of `asyncio.gather` are built. A plain predicate's result then makes `gather` raise a `TypeError`, and a plain predicate that raises while being called stops the later predicates from being called. The model calls every predicate and leaves each outcome to the reply stream.
