# squadron: serial queue, throttler and debouncer

A Dafny model of the three schedulers of squadron (redgeoff/squadron):

- **Synchronizer** (`scripts/synchronizer.js`) is a strict FIFO serial queue.
  Submitted tasks wait in `_promiseFactories`. A drain pass `shift`s all of them onto one chain. Each task starts only after its predecessor settled. `_numProcesses` counts the tasks that have not settled yet. `_running` says whether a drain loop is active.
- **Throttler** (`scripts/throttler.js`) limits concurrency over a growing list of synchronizer lanes.
  A task goes to the first lane whose count is smallest. A new lane is appended when no lane is idle and the lane count is below the cap.
- **Debouncer** (`scripts/debouncer.js`) removes duplicate requests per resource.
  A request passes through an admission synchronizer. It then becomes a registration `{resource, running, synchronizer}` in `_processes`, is throttled onto a lane, and runs on the synchronizer shared by every registration of its resource. A request for a resource that has a registration waiting to start is dropped.

Promises are not modelled. Every state change of the source happens in a synchronous section between two promise callbacks. The model groups these sections into event methods of a class. Most methods are one section; `Settle`, `ResourceStart`, `Admit` and `Complete` each fuse several consecutive ones (see "## Left out"). The events are:

- submit a task;
- the chain invokes its head;
- the head settles with an outcome;
- a drain pass ends.

Emitted events are appended to a `log` sequence. The callers' promises become the `settlements` sequence of a synchronizer. The debouncer has ghost bookkeeping that the source does not keep:

- `phase` records, for every registration ever created, where its work is: throttled, queued on its resource, started, failed or finished;
- `syncs` is the set of per-resource synchronizers;
- `executed` lists the factories invoked, in order;
- `factoryOf` maps each registration to the factory of the request it was created for.

Files:
- `wrappers.dfy`: `Option`.
- `synchronizer.dfy`: module `Synchronizers`.
- `throttler.dfy`: module `Throttlers`.
- `throttler_scenario.dfy`: module `ThrottlerScenario`. It walks the "should throttle" test of `test/spec/throttler.js` (lines 29-50) through the throttler's event methods.
- `registrations.dfy`: module `Registrations`. It holds the entries of `_processes`, the list operations `_find`, `indexOf` and `splice`, and the registry invariant with its preservation lemmas.
- `debouncer.dfy`: module `Debouncers`.
- `debouncer_scenario.dfy`: modules `DebouncerStages` and `DebouncerScenario`. They walk the "should remove dups" test of `test/spec/debouncer.js` (lines 84-100) through the event methods, stage by stage. Each stage is a predicate over the debouncer, its admission queue, its lanes and the resource's synchronizer.

FIFO order of a synchronizer follows from its contracts:
- `Run` appends the task to `Outstanding()`, the unsettled tasks in settlement order.
- `Start` invokes `chain[0]`.
- `Settle` settles that same head and drops it from `Outstanding()`.

The count stays consistent through `Valid()`, which `Run`, `Settle` and `EndPass` all preserve:
- `numProcesses == |chain| + |promiseFactories|`;
- `!running` implies that both sequences are empty.

Failed registrations stay listed. In `scripts/debouncer.js` an entry is removed only in the continuation that follows a resolved factory (lines 70-81). A factory that rejects skips that continuation. Its entry stays in `_processes`, still marked running, and the debouncer's `all-done` never fires after that. `Debouncers.Debouncer.Fail` keeps the entry, and `Registrations.Listed` covers failed entries.

## Model

| member | source | states |
|---|---|---|
| Synchronizers.TaskEvents | scripts/synchronizer.js:30-41 | A resolved task emits `process-done`, then `process-done-or-error`. A rejected task emits `process-error` with its error, then `process-done-or-error`. Exactly two events per task. |
| Synchronizers.Synchronizer.constructor | scripts/synchronizer.js:12-21 | A new queue has no pending task and no chain, a count of 0, is not running, and has emitted nothing. |
| Synchronizers.Synchronizer.PushPromiseFactory | scripts/synchronizer.js:25-28 | The task is appended at the tail of the pending list. |
| Synchronizers.Synchronizer.Run | scripts/synchronizer.js:56-70 | Outstanding tasks gain the new task at the end, and the count grows by one. A new loop starts only when none was running: the chain becomes exactly `[t]`. When a loop is already running, the chain is untouched and `t` waits at the tail of the pending list. Afterwards the loop is running, the invariant holds, and nothing is emitted. |
| Synchronizers.Synchronizer.Shift | scripts/synchronizer.js:90 | `shift` on an empty list yields nothing. Otherwise it yields the head and leaves the rest. |
| Synchronizers.Synchronizer.ChainPromiseFactories | scripts/synchronizer.js:83-98 | The loop moves every pending task onto the chain, in order, and leaves the pending list empty. |
| Synchronizers.Synchronizer.ProcessFactories | scripts/synchronizer.js:100-103 | One drain pass appends the whole pending list to the chain. |
| Synchronizers.Synchronizer.Start | scripts/synchronizer.js:72-75 | Only the chain's head can start, and only once its predecessor has settled. The task started is `chain[0]`. |
| Synchronizers.Synchronizer.Settle | scripts/synchronizer.js:30-41 | The head settles (the per-task wrapper here, then the decrement of lines 75-78) and leaves the chain. The caller's promise gets the outcome. The task's own events come first. Then the count drops by one, and `all-done` follows exactly when the count reaches 0. A failure does not stop the loop: `running` is unchanged and later tasks stay queued. |
| Synchronizers.Synchronizer.EndPass | scripts/synchronizer.js:103-112 | After a chain drains, the loop stops exactly when nothing is pending. Otherwise everything that arrived meanwhile becomes the next chain. Outstanding tasks are unchanged. |
| Synchronizers.Synchronizer.NumProcesses | scripts/synchronizer.js:115-117 | The count equals the pending tasks plus the unsettled chain tasks. |
| Synchronizers.Synchronizer.EmitAllDoneWhenNoProcesses | scripts/synchronizer.js:119-123 | `all-done` is appended exactly when the count is 0. |
| Synchronizers.Synchronizer.AllDone | scripts/synchronizer.js:126-132 | The promise resolves at once exactly when no task is outstanding. |
| Synchronizers.SubmissionOrder | test/spec/synchronizer.js:41-66 | Two tasks are submitted back to back. The first rejects, and the queue still runs the second, which resolves. The callers' promises settle in submission order: the first with the error, the second with `undefined`. The log is exactly `process-error`, `process-done-or-error`, `process-done`, `process-done-or-error`, `all-done`. The queue ends empty, stopped, with a count of 0. |
| Synchronizers.SubmitTwo | scripts/synchronizer.js:56-70 | The first `run` starts a pass and chains its task at once. The second `run` finds the loop running, so its task waits in the pending list. |
| Synchronizers.FirstPass | scripts/synchronizer.js:72-112 | The head starts and rejects, emitting `process-error` with the error and then `process-done-or-error`. The count is still 1, so no `all-done`. The loop keeps running, and the next pass chains exactly the pending task. |
| Synchronizers.SecondPass | scripts/synchronizer.js:72-112 | The second task starts only now and resolves, emitting its two events. The count reaches 0, so `all-done` follows. The pass ends with nothing pending, and the loop stops. |
| Throttlers.SumZero | scripts/throttler.js:69-77 | A sum of non-negative counts is non-negative, and is zero exactly when every count is zero. |
| Throttlers.SumSnoc | scripts/throttler.js:72-74 | Adding one more count to the running total extends the sum. |
| Throttlers.Counts | scripts/throttler.js:35-36 | One count per lane, equal to that lane's `numProcesses()`. |
| Throttlers.LoadsOfStates | scripts/throttler.js:35-36 | The counts read from the lanes' states are the lanes' live counts, so the routing rule can be stated over the states before a call. |
| Throttlers.FirstMinBusy | scripts/throttler.js:45 | The first least-loaded lane is busy exactly when every lane is busy. So the creation test is "no lane is idle". |
| Throttlers.IdleLanes | scripts/throttler.js:69-77 | Over consistent lanes, the total count is 0 exactly when no lane has an outstanding task. |
| Throttlers.Throttler.constructor | scripts/throttler.js:9-17 | A falsy cap (absent or 0) becomes the default of 20. Otherwise the given cap is kept. A new throttler has no lanes. |
| Throttlers.Throttler.SetMaxConcurrentProcesses | scripts/throttler.js:19-23 | The cap becomes the value set. The existing lanes stay, even when the cap is lowered below their number. |
| Throttlers.Throttler.GetMaxConcurrentProcesses | scripts/throttler.js:25-27 | Returns the cap, so a get after a set returns the value set. |
| Throttlers.Throttler.LeastBusyLane | scripts/throttler.js:30-39 | The scan returns no lane exactly when there are none. Otherwise it returns the first lane of minimal count, since strict `<` keeps the earlier of two equal lanes. |
| Throttlers.Throttler.Run | scripts/throttler.js:29-55 | The lanes before and after the call satisfy `Submitted`. The lane follows the routing rule `Routed` over the counts before the call: a new lane is created exactly when no lane is idle and the lane count is below the cap, and otherwise the task goes to the first least-loaded lane. `Placed` then holds. A created lane is appended, stays within the cap, and its whole state is a chain of just the task with a count of 1. An existing lane's state changes exactly as its own `run` would change it. Every other lane keeps its whole state. Existing lanes keep their positions in the lane list. The cap and the log are unchanged. |
| Throttlers.Throttler.Dispatch | scripts/throttler.js:45-54 | Given the scan's result (no lane exactly when there are none, otherwise the first least-loaded lane), the lanes before and after satisfy `Submitted`. Existing lanes keep their positions, and a lane not listed before is fresh. |
| Throttlers.Throttler.RunOnNewLane | scripts/throttler.js:48-54 | A fresh lane is pushed at the end of the lane list. Its state is exactly a running chain of the task, and every earlier lane keeps its state (`Placed`). |
| Throttlers.Throttler.RunOnLane | scripts/throttler.js:54 | The chosen lane's state changes as its `run` of the task would change it, and every other lane keeps its whole state (`Placed`). The lane list is unchanged. |
| Throttlers.Throttler.Forward | scripts/throttler.js:57-67 | The lane's new events are re-emitted in order, with the same names and arguments. |
| Throttlers.Throttler.StartOnLane | scripts/throttler.js:54 | A lane starts the head of its chain, as in `Start`. Its chain, pending list, count, loop flag, log and settlements are unchanged. |
| Throttlers.Throttler.SettleOnLane | scripts/throttler.js:54-67 | A lane settles its head, as in `Settle`. The throttler's log gains exactly the lane's new events: the task events, then `all-done` when that lane's count reaches 0. |
| Throttlers.Throttler.EndPassOnLane | scripts/throttler.js:54 | A lane's drain pass ends, as in `EndPass`: the lane stops exactly when nothing is pending, and otherwise chains what was pending. Its outstanding tasks, count, log and settlements are unchanged, and no head is started. |
| Throttlers.Throttler.NumProcesses | scripts/throttler.js:69-77 | The running total equals the sum of the lane counts. It is non-negative, and is 0 exactly when no lane has an outstanding task. |
| Throttlers.Throttler.AllDone | scripts/throttler.js:80-86 | The promise waits for exactly the lanes with outstanding tasks, listed in lane order. With no lanes, or only idle ones, nothing is awaited. |
| ThrottlerScenario.ShouldThrottle | test/spec/throttler.js:29-50 | With a cap of two, tasks 1 and 2 start at once on two lanes. Task 3 waits behind task 1 and starts only after task 1 resolved, while task 2 is still running. |
| ThrottlerScenario.RouteThree | test/spec/throttler.js:38-44 | After three `run` calls there are exactly two distinct new lanes: the first chains task 1 with task 3 pending, and the second chains task 2 alone. |
| ThrottlerScenario.RouteFirst | scripts/throttler.js:45-54 | With no lane, `run` creates one, and its whole state is a running chain of just task 1. |
| ThrottlerScenario.RouteSecond | scripts/throttler.js:45-54 | With the only lane busy and the cap not reached, `run` appends a second lane holding just task 2. The first lane keeps its state. |
| ThrottlerScenario.RouteThird | scripts/throttler.js:30-54 | With both lanes busy and the cap reached, `run` picks the first least-loaded lane. Task 3 joins its pending list, and the second lane keeps its state. |
| Registrations.Registration.constructor | scripts/debouncer.js:96-100 | A new registration is for the given resource and synchronizer, and is not running. |
| Registrations.Find | scripts/debouncer.js:28-43 | Returns nothing exactly when no entry is for `r`. Otherwise it returns the first non-running entry for `r` when one exists, and else the last entry for `r`, which is running. The result is a non-running entry exactly when some entry for `r` waits to start. |
| Registrations.WaitingAppend | scripts/debouncer.js:102-113 | After a `push`, a resource has an entry waiting to start exactly when it had one before, or the pushed entry is for it and not running. So a pushed idle entry makes the next request for its resource a duplicate, and a running one never does. |
| Registrations.IndexOf | scripts/debouncer.js:74 | Returns -1 exactly when `p` is not listed. Otherwise it returns the first position holding `p`. |
| Registrations.SpliceOne | scripts/debouncer.js:75 | `splice(index, 1)`. A position in range removes exactly that element and keeps the others in order. -1 removes the last element. A position past the end removes nothing. |
| Registrations.Remove | scripts/debouncer.js:74-75 | Removing one occurrence of `x` shortens the list by one when `x` is present and otherwise changes nothing. |
| Registrations.RemoveCount | scripts/debouncer.js:74-75 | The multiset of entries loses exactly one `x`, and nothing else. |
| Registrations.RemoveAt | scripts/debouncer.js:74-75 | Splicing at the first position of `x` is the removal of `x`. |
| Registrations.EntrySynchronizer | scripts/debouncer.js:45-57 | Under the registry invariant, the synchronizer of any entry is the synchronizer of every entry for that resource. |
| Registrations.RegistryAppend | scripts/debouncer.js:96-114 | Appending a fresh, idle entry keeps the registry invariant, provided no entry for its resource waits and it shares that resource's synchronizer. |
| Registrations.ResourcesAdd | scripts/debouncer.js:45-57 | Tracking a registration and its consistent synchronizer keeps every tracked synchronizer consistent. |
| Registrations.RegistryRephase | scripts/debouncer.js:64-69 | Moving a listed entry to a later phase in which it is still listed keeps the registry invariant. |
| Registrations.RegistryRemove | scripts/debouncer.js:70-76 | Removing the entry of a resolved factory keeps the registry invariant, including the remaining entries' order and distinctness. |
| Registrations.Listed | scripts/debouncer.js:74 | The entry of a factory that has not resolved, a failed one included, is still listed. So `indexOf` in the success continuation never returns -1. |
| Registrations.OneWaiting | scripts/debouncer.js:28-119 | For each resource, at most one listed entry is not running. |
| Registrations.BooksAppend | scripts/debouncer.js:93-105 | `_runProcess` appends an idle entry for a resource with no waiting entry, and the debouncer's whole invariant survives. |
| Registrations.BooksRephase | scripts/debouncer.js:88-89 | A handoff from lane to resource queue, or a rejection (lines 131-135), keeps the whole invariant. |
| Registrations.BooksEnter | scripts/debouncer.js:64-67 | Marking a queued entry running when its wrapper starts keeps the whole invariant. |
| Registrations.BooksRemove | scripts/debouncer.js:70-76 | Splicing a resolved entry out at its `indexOf` removes exactly that entry and keeps the whole invariant. |
| Debouncers.ThirdRequestDropped | scripts/debouncer.js:107-119 | R1 has started and R2 has not, both for one resource. A request arriving with only R1 listed is scheduled. A request arriving with R1 and R2 listed is dropped. It is the instance of `Registrations.WaitingAppend` for these two pushes. `DebouncerScenario.ThirdDropped` uses it for R3. |
| Debouncers.Debouncer.constructor | scripts/debouncer.js:14-26 | The debouncer starts with no entries and an empty admission queue that is not running. Its throttler has no lanes and a cap of 20. |
| Debouncers.Debouncer.Run | scripts/debouncer.js:123-128 | A request is appended to the admission queue. |
| Debouncers.Debouncer.SetConcurrency | scripts/debouncer.js:139-141 | The throttler's cap becomes the given value. |
| Debouncers.Debouncer.HasProcesses | scripts/debouncer.js:153-155 | True exactly when the admission queue or some lane has an outstanding task. |
| Debouncers.Debouncer.AllDone | scripts/debouncer.js:144-151 | Resolves at once exactly when the debouncer is idle. While admission is busy it first waits for the admission queue. Otherwise it waits for exactly the busy lanes. |
| Debouncers.Debouncer.GetSynchronizer | scripts/debouncer.js:45-57 | The synchronizer of the entry found, or a fresh, idle one when none was found. |
| Debouncers.Debouncer.ThrottleProcess | scripts/debouncer.js:85-91 | The throttled task of the registration is submitted to the throttler: the lanes move from their states before the call (the ghost `was`) as `Submitted` says, so the lane follows the routing rule and only that lane changes. The registration's own synchronizer is untouched. |
| Debouncers.Debouncer.Throttle | scripts/debouncer.js:88-90 | `this._throttler.run(...)`: the lanes satisfy `Submitted` for the task. |
| Debouncers.Debouncer.RunProcess | scripts/debouncer.js:93-105 | A new idle registration for the resource is pushed at the end of `_processes`. It shares the found entry's synchronizer, or gets a fresh, empty one when no entry was found. `factoryOf` records the request's factory for it. Its task is throttled: the lanes move from their states before the call as `Submitted` says. |
| Debouncers.Debouncer.Register | scripts/debouncer.js:94-102 | The bookkeeping half of `_runProcess`: the push, the shared or fresh synchronizer, the request's factory in `factoryOf`, and the invariant. |
| Debouncers.Debouncer.Track | scripts/debouncer.js:102 | `push`: the registration is appended after every existing entry, its factory is recorded in `factoryOf`, and the invariant holds. |
| Debouncers.Debouncer.Schedule | scripts/debouncer.js:107-119 | The request is dropped exactly when an entry for its resource waits to start. A dropped request leaves `_processes` unchanged. A dropped request also leaves every lane as it was. Otherwise exactly one new idle entry is appended, with the request's factory in `factoryOf`. It runs on the synchronizer of every existing entry for the resource, or on a fresh, empty one when there is none. Its throttled task is routed as `Submitted` says. |
| Debouncers.Debouncer.Admit | scripts/debouncer.js:128-131 | The admission head starts and runs `_schedule` for its own request, with everything `Schedule` promises about drops, entries and lanes. A new entry's `factoryOf` is the factory of that admitted request. The admission task itself stays outstanding: the queue's chain and pending list are unchanged. |
| Debouncers.Debouncer.AdmitSettle | scripts/debouncer.js:128-136 | The admission task settles with `undefined` and leaves the chain. The queue emits the events of a resolved task, then `all-done` exactly when its count reaches 0. The pending list and `running` are unchanged. |
| Debouncers.Debouncer.AdmitEndPass | scripts/debouncer.js:128 | The admission queue's drain pass ends, as in `EndPass`: it stops exactly when no request is pending, and otherwise chains the pending requests. Outstanding requests are unchanged. |
| Debouncers.Debouncer.LaneInvoke | scripts/debouncer.js:88-90 | A lane invokes the throttled task of a registration, whose factory must be the one `factoryOf` recorded for it. The wrapped factory is appended to the registration's synchronizer, as that synchronizer's `run` would, and the registration moves from throttled to queued. |
| Debouncers.Debouncer.Submit | scripts/debouncer.js:89 | `synchronizer.run(...)`: the wrapped factory joins the resource synchronizer's outstanding tasks at the end, on the current chain only when no loop was running. |
| Debouncers.Debouncer.Queue | scripts/debouncer.js:88-89 | The registration's phase moves from throttled to queued, and the invariant holds. |
| Debouncers.Debouncer.WrapperStart | scripts/debouncer.js:62-69 | Only a registration's own factory, the one `factoryOf` recorded, can be entered for it. `running` is set before the factory is invoked, and the factory is recorded as executed. |
| Debouncers.Debouncer.Enter | scripts/debouncer.js:67 | `process.running = true`: the queued registration is marked running and moves to started, and the invariant holds. |
| Debouncers.Debouncer.ResourceStart | scripts/debouncer.js:62-69 | The resource's synchronizer starts its head, a queued wrapped factory. That factory's registration is marked running and the factory, which must be the one `factoryOf` recorded for the registration, is recorded as executed. |
| Debouncers.Debouncer.StartHead | scripts/synchronizer.js:72-75 | The resource's synchronizer starts `chain[0]`, as in `Start`. |
| Debouncers.Debouncer.ResourceSettle | scripts/synchronizer.js:30-41 | The resource's synchronizer settles its started head with the factory's outcome, as in `Settle`. The head leaves the chain and `Outstanding()`, and the caller's promise gets the outcome. That synchronizer's log gains the task's two events, then `all-done` exactly when its count reaches 0. |
| Debouncers.Debouncer.ResourceEndPass | scripts/synchronizer.js:103-112 | The resource's synchronizer ends its drain pass, as in `EndPass`. |
| Debouncers.Debouncer.Complete | scripts/debouncer.js:70-81 | On success, exactly that entry is removed, the others keep their order, and `all-done` fires exactly when the list becomes empty. On failure, the entry stays, still running, `_processes` is unchanged and `process-error` is emitted with the error, by the `catch` of `run` (lines 131-135). |
| Debouncers.Debouncer.Deregister | scripts/debouncer.js:70-81 | The success continuation: `indexOf` and `splice` of the entry, then `all-done` exactly when no entry is left. |
| Debouncers.Debouncer.Untrack | scripts/debouncer.js:74-75 | The entry is spliced out at its `indexOf`, which removes exactly it. |
| Debouncers.Debouncer.EmitAllDoneWhenEmpty | scripts/debouncer.js:77-80 | `all-done` is appended exactly when `_processes` is empty. |
| Debouncers.Debouncer.Fail | scripts/debouncer.js:131-135 | A rejected factory leaves the entry in place and emits `process-error` with its error. |
| Debouncers.Debouncer.Emit | scripts/debouncer.js:134 | `self.emit(...)`: exactly the event is appended to the debouncer's log. |
| DebouncerScenario.RemoveDups | test/spec/debouncer.js:84-100 | Three requests for one resource: after the first factory is entered the second is scheduled, the third arrives while the second waits and is dropped. Only R1 and R2 get a registration, with `factoryOf` 1 and 2. The factories entered are exactly 1 then 2, and R2's entry is the only one left. |
| DebouncerScenario.TwoAdmitted | test/spec/debouncer.js:88-90 | After the first two admissions, R1's factory runs, R2's wrapped factory waits behind it on the shared synchronizer, and R3 is the admission queue's last task. |
| DebouncerScenario.RequestThree | test/spec/debouncer.js:88-90 | Three `run` calls: the first starts the admission queue's pass with R1 alone on the chain, and R2 and R3 wait for the next pass. |
| DebouncerScenario.FirstEntered | scripts/debouncer.js:107-136 | R1 is admitted and its factory entered. R2 and R3 form the admission queue's next pass. |
| DebouncerScenario.AdmitFirst | scripts/debouncer.js:93-114 | With no entry for the resource, R1 becomes the only entry, idle, on a fresh, empty synchronizer. |
| DebouncerScenario.StartFirst | scripts/debouncer.js:62-69 | R1's factory is entered, and the admission queue's pass ends with R2 and R3 as its next chain. |
| DebouncerScenario.EnterFirst | scripts/debouncer.js:62-69 | R1's lane hands its wrapped factory to the empty resource synchronizer, which starts it at once: R1 is marked running and factory 1 is entered. |
| DebouncerScenario.NextAdmission | scripts/synchronizer.js:103-112 | The admission head settles, and the pass ends: the pending requests become the next chain, and the loop stops exactly when none were pending. |
| DebouncerScenario.SecondWaits | scripts/debouncer.js:107-114 | R2 is admitted and its wrapped factory waits behind R1's on the shared synchronizer. R3 is next in the admission queue. |
| DebouncerScenario.AdmitSecond | scripts/debouncer.js:28-57 | R1's entry is running, so `_find` does not count it as waiting. R2 becomes a second entry, idle, on R1's synchronizer. |
| DebouncerScenario.QueueSecond | scripts/synchronizer.js:56-70 | R2's wrapped factory joins R1's running synchronizer as a pending task, not on the current chain. |
| DebouncerScenario.ThirdDropped | scripts/debouncer.js:113-118 | R2's entry still waits, so R3 is dropped: the entries and the lane list are unchanged, and the admission queue drains and stops. |
| DebouncerScenario.SecondEntered | scripts/debouncer.js:70-81 | R1's factory resolves and its entry is spliced out. Its synchronizer's next pass starts R2's wrapped factory, so factory 2 is entered after factory 1. |
| DebouncerScenario.FirstResolves | scripts/debouncer.js:70-81 | R1's factory resolves. Splicing its entry out of `[R1, R2]` leaves exactly `[R2]`, still queued, and R2's wrapped factory is still pending on the shared synchronizer. |
| DebouncerScenario.SecondStarts | scripts/debouncer.js:62-69 | The shared synchronizer's next pass starts R2's wrapped factory: R2 is marked running and factory 2 is entered after factory 1. |
| DebouncerScenario.ResourceNext | scripts/synchronizer.js:103-112 | The resource synchronizer's head settles, and its pass ends: the pending wrapped factories become the next chain. |

## Left out

- Promises, bluebird and the event emitter are not modelled. Each event method stands for one synchronous section between two promise callbacks, or for several consecutive ones (`Settle`, `ResourceStart`, `Admit` and `Complete`, listed below). The order in which the caller invokes those methods is the trace. Each method's preconditions say which point of the trace it belongs to.
- Wall-clock durations and the timers of `scripts/utils.js` are left out. The tests' timed scenarios become orders of event calls.
- The wrapping of non-promise factories is left out: `_wrapPromiseFactory` of the synchronizer (`scripts/synchronizer.js:46-54`) and `Promise.resolve` in the debouncer (`scripts/debouncer.js:64`). A task is an opaque value, and its outcome is given to `Settle`.
- The value that the debouncer's `run` resolves with is not modelled. The function handed to the admission queue returns nothing (`scripts/debouncer.js:128-136`), so in the code every caller receives `undefined`. The "should remove dups" test expects the labels 1, 2 and 2 (`test/spec/debouncer.js:95-98`). The model follows the code, and `DebouncerScenario.RemoveDups` states only the order in which the factories are entered (line 93).
- squadron's own demo, `examples/synchronizer/`, and `test/browser-coverage/server.js` are not part of this model.
- Debouncers.Debouncer.LaneInvoke: per-resource first-come-first-served order is not proved for arbitrary traces. That order means the factories of one resource are entered in the order their requests were admitted. `DebouncerScenario.RemoveDups` shows it for the three-request scenario only.
- Debouncers.Debouncer.LaneInvoke: does not require its task to be the started head of a lane. The lanes, the resource synchronizers and the debouncer's entries are separate objects, and the model does not link their heads. So `LaneInvoke`, `WrapperStart` and `Complete` take the registration concerned. The corresponding `StartOnLane`/`Start`/`Settle` steps of the lanes and of the resource synchronizers are separate calls.
- Debouncers.Debouncer.WrapperStart: does not require its task to be the started head of the registration's synchronizer, for the same reason. It does require the factory to be the registration's own (`factoryOf`). `ResourceStart` does start the head, but first-come-first-served order across the registrations of a resource is not proved in general, only in `DebouncerScenario.RemoveDups`.
- Debouncers.Debouncer.ResourceStart: fuses four callbacks into one step: the resource synchronizer's chain link that invokes its head (`scripts/synchronizer.js:74-75`), the `.then` of `_wrapPromiseFactory` (lines 50-51), the debouncer wrapper's callback that sets `process.running` (`scripts/debouncer.js:64-67`), and the one that calls the factory (lines 68-69).
- Debouncers.Debouncer.Admit: fuses the admission queue's chain link that invokes its head (`scripts/synchronizer.js:74-75`) with the `.then` of `_wrapPromiseFactory` (lines 50-51), which runs the admitted function and so `_schedule` and the throttler's `run` (`scripts/debouncer.js:128-131`).
- Synchronizers.Synchronizer.Settle: fuses two promise callbacks into one step. The first is the wrapper of `_pushPromiseFactory` (`scripts/synchronizer.js:30-41`), which emits the task's events and settles the caller's promise. The second is the link of `_chainPromiseFactory` (lines 75-78), which drops the count and may emit `all-done`. In the source, a `process-done` listener still sees the old count. A `run` called by the caller's continuation in between raises the count first, so `all-done` is not emitted. The model does not capture that interleaving.
- Debouncers.Debouncer.AllDone: `awaited` is read from the lanes at the call. The source reads them in a later `.then` callback, so tasks that arrive or settle in between are not reflected.
- Debouncers.Debouncer.Complete: does not settle the resource synchronizer's head or the lane's head. Those settle through their own `Settle` steps, whose events land in their own logs. The debouncer does not forward them, and neither does the source.
- Debouncers.Debouncer.Complete: on a rejection, fuses the factory's rejection with the debouncer's `process-error` (through `Fail`). In the source that event comes several callbacks later. The `catch` of `run` (`scripts/debouncer.js:131-135`) hangs on the promise of the lane's task (`scripts/throttler.js:54`). That promise rejects only after the lane's wrapper (`scripts/synchronizer.js:35-40`) sees the promise of the resource synchronizer's `run` (`scripts/debouncer.js:89`) reject. Before that, the resource synchronizer emits its own `process-error`, and the lane emits one that the throttler forwards. The model does not order the debouncer's `process-error` relative to those.
- Debouncers.Debouncer.Fail: emits `process-error` in the same step as the rejection, as described for `Complete`.
- Throttlers.Throttler.Run: requires a lane or a positive cap. With no lane and a cap below 1, the source dereferences null at `scripts/throttler.js:54`. `Debouncers.Debouncer.Schedule` and `Admit` carry the same requirement, because `setConcurrency(0)` before the first request leads there.
- `_numProcesses` and the caps are unbounded integers. JavaScript numbers are exact far beyond any reachable count.
- An omitted resource is JavaScript's `undefined`. It is a key like any other of the type parameter `K`, compared with `==`, which stands for `===`.
