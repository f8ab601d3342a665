# atpbar lifecycle state machine, in Dafny

This project models `atpbar/machine.py`, the state machine that decides when atpbar's
background pickup runs. The pickup is the task that drains the progress queue and draws the bars.

- **States.** The machine holds one of four states:
  - `Initial`: no pickup is running.
  - `Started`: a pickup is running on the queue.
  - `Registered`: a reporter was handed in from another process.
  - `Disabled`: progress reporting is off.
- **StateMachine.** Every operation replaces the `state` field with what the current state's transition returns.
- **Nested-use protocol.** `Started.fetch_reporter` keeps two flags, `reporter_yielded` and `to_restart_pickup`.
  - Only the outermost loop on the main thread restarts the pickup, when it ends.
  - If the pickup calls `detach` during that loop, the restart is skipped.

Files and modules:

- `protocol.dfy` (module `Protocol`) covers the two flags as a value.
  - It defines the acquisition (the code before the `yield`), the release (the `finally` block) and `detach`.
  - It gives traces of uses a semantics, `Run`.
  - It proves the nesting lemmas: one restart per outermost use, none when detached, and `reporter_yielded` true exactly while an outermost use is open.
- `lifecycle.dfy` (module `Lifecycle`) covers every state and transition as a value.
  - Queue, reporter and pickup are opaque identities.
  - A `World` records which pickups are alive and how many were started and ended.
  - `Good` is the invariant. It states that at most one pickup is alive. In `Initial` none is alive, and the reporter and queue exist together. In `Started` exactly the state's own pickup is alive. "Alive" means started and not yet joined: a pickup that a stray sentinel made exit early still counts (see "The sentinel" under "## Left out").
  - The lemmas show that every operation keeps `Good` and never raises from a `Good` state.
- `machine.dfy` (module `Machine`) covers the objects.
  - `Started` is a class whose methods update `pickup`, `reporter_yielded` and `to_restart_pickup` in place.
  - `StateMachine` is a class whose methods replace `state`.
  - `Runtime` stands for the foreign objects.
  - Each method is proved equal to the matching `Lifecycle` function of the old state.
  - `StateMachine.Valid()` follows every `Started` object the machine created, including objects that are no longer the state but still have an outermost loop open. This gives "at most one pickup alive" across every sequence of calls.
- `scenarios.dfy` (module `Scenarios`) holds client methods. Each starts from a fresh machine and replays one behaviour: nested loops, a worker loop, a detached loop, shutdown and find, a registered reporter, a disabled machine, and shutdown inside a loop.

Behaviour the model keeps from the code:

- **A reporter without a queue.** `Started.__init__` creates a queue only when neither a reporter nor a queue is given. So a Started state built from a reporter alone would have no queue. The model keeps that case: `StartedView.queue` is optional. `Good` shows that it cannot happen from the machine's first state.
- **Raising `_end_pickup`.** `_end_pickup` raises when the queue or the pickup is `None`. This is modelled as `Lifecycle.EndPickup` returning `None` and as the `Raised` ending of a release.
  - From a `Good` state no operation raises.
  - Calling `shutdown` inside the outermost main-thread loop makes that loop's `finally` block raise, unless the pickup called `detach` during the loop before the `shutdown`. The old Started object then restarts a pickup it no longer has (`Lifecycle.ShutdownDuringUseRaises`, `Scenarios.ShutdownInsideLoop`). After a `detach` the `finally` block returns before `_end_pickup` and nothing raises (`Lifecycle.ShutdownAfterDetachKept`, `Scenarios.DetachedShutdownInsideLoop`).
- **Leaving Started for Registered or Disabled.** `register_reporter` and `disable` leave a running pickup alive and unowned by the state. An open outermost loop of that old Started object still restarts it when it ends. The model keeps this, and the invariant still allows at most one live pickup.
- **`shutdown` of a Disabled state** returns the Disabled state itself (the `State` base default). So Disabled is left only by `register_reporter`.

## Model

| member | source | states |
|---|---|---|
| Protocol.Acquire | atpbar/machine.py:115-127 | a use is outermost exactly when it is on the main thread and `reporter_yielded` is false, that is, no outermost use is open (an open worker-thread use sets no flag); then both flags become true; otherwise neither flag changes |
| Protocol.Release | atpbar/machine.py:129-136 | releasing an outermost use clears `reporter_yielded` and asks for a restart exactly when `to_restart_pickup` is still set; releasing any other use changes nothing |
| Protocol.Detach | atpbar/machine.py:138-156 | `detach` clears `to_restart_pickup` and leaves `reporter_yielded` alone |
| Protocol.RunKeepsConsistent | atpbar/machine.py:121-136 | over any trace of uses and detaches, `reporter_yielded` is true exactly while an outermost use is open, and at most one outermost use is open |
| Protocol.InnerUses | atpbar/machine.py:121-124 | inside an outermost use, nested uses never restart the pickup and never clear `reporter_yielded`; the restart flag survives unless a detach comes |
| Protocol.OutermostUse | atpbar/machine.py:126-136 | an outermost use around properly nested uses restarts the pickup exactly once, or not at all if `detach` ran during it, and leaves no use open |
| Protocol.SequentialUses | atpbar/machine.py:115-136 | over back-to-back outermost uses, the number of restarts equals the number of uses during which `detach` did not run |
| Protocol.RunAppend | atpbar/machine.py:115-136 | running two traces one after the other is running their concatenation |
| Lifecycle.StartPickup | atpbar/machine.py:101-104 | a brand-new pickup, one that was not alive before, becomes the object's pickup and is alive; one more pickup started; nothing else of the object changes |
| Lifecycle.EndPickup | atpbar/machine.py:106-109 | raises exactly when the queue or the pickup is missing; otherwise the pickup is no longer alive, one more ended, and `pickup` is `None` |
| Lifecycle.RestartPickup | atpbar/machine.py:111-113 | the old pickup stops being alive and a fresh one becomes alive; one more pickup started and one more ended; raises exactly when ending raises |
| Lifecycle.Construct | atpbar/machine.py:87-99 | keeps a given reporter and queue; creates a queue only when neither is given and a reporter only when none is given, both fresh; starts exactly one pickup; flags start false and true |
| Lifecycle.CloseUse | atpbar/machine.py:129-136 | the release keeps reporter and queue; it restarts exactly when an outermost use ends with the restart flag set and a pickup to end; it raises when that pickup or queue is missing; otherwise pickups are untouched |
| Lifecycle.PrepareReporter | atpbar/machine.py:44-74 | Registered and Disabled return themselves (the base default, lines 44-45) and touch no pickup; Initial (lines 73-74) becomes Started with one new pickup alive and the flags fresh, a held reporter and queue carried over, and a queue always present when no reporter was held |
| Lifecycle.Flush | atpbar/machine.py:56-160 | Registered and Disabled return themselves (lines 56-57); Initial becomes Started with one new pickup alive and none ended (lines 79-80); Started restarts its pickup and otherwise stays the same (lines 158-160); it raises exactly when a Started state lacks its queue or pickup |
| Lifecycle.Shutdown | atpbar/machine.py:59-164 | every state but Started returns itself and touches no pickup (lines 59-60); Started ends its pickup and gives Initial holding its reporter and queue (lines 162-164), raising exactly when the queue or pickup is missing |
| Lifecycle.HeldReporter | atpbar/machine.py:19 | the `reporter` attribute of each state: Started's own, Initial's and Registered's as held, and `None` for Disabled (line 184) |
| Lifecycle.Step | atpbar/machine.py:11-33 | `register_reporter` and `disable` go to Registered and Disabled from any state and touch no pickup; only `flush` and `shutdown` of a Started state without queue or pickup raise; Registered and Disabled are fixed points of every other operation |
| Lifecycle.InitialGood | atpbar/machine.py:12-14 | the machine's first state, Initial with neither reporter nor queue, satisfies the invariant |
| Lifecycle.StepKeepsGood | atpbar/machine.py:16-33 | from a Good state every StateMachine operation succeeds and leaves a Good state |
| Lifecycle.PrepareKeepsGood | atpbar/machine.py:73-74 | `prepare_reporter` keeps the invariant: Initial becomes Started with its own pickup the only one alive |
| Lifecycle.StepsKeepGood | atpbar/machine.py:11-38 | along any sequence of operations from a Good state nothing raises and at most one pickup is ever alive |
| Lifecycle.InitialFlushIsPrepare | atpbar/machine.py:73-80 | from Initial, `flush` and `prepare_reporter` give the same Started state |
| Lifecycle.PrepareFromInitial | atpbar/machine.py:87-99 | from Initial, `prepare_reporter` carries the reporter and queue over, or makes fresh ones, and exactly one pickup is alive, started by this step |
| Lifecycle.ShutdownThenPrepare | atpbar/machine.py:162-164 | `shutdown` ends the pickup and gives Initial holding the identical reporter and queue; a later `prepare_reporter` reuses both and starts exactly one new pickup |
| Lifecycle.FlushOfStarted | atpbar/machine.py:158-160 | `flush` of Started ends the old pickup, starts one new one and otherwise stays the same Started state |
| Lifecycle.InertStates | atpbar/machine.py:44-60 | from Registered or Disabled, any sequence of operations never starts or ends a pickup and never leaves Registered or Disabled |
| Lifecycle.QuietKeepsInert | atpbar/machine.py:44-60 | from Registered or Disabled, any sequence of operations without `register_reporter` or `disable` leaves the very same state and the pickups untouched |
| Lifecycle.FindReporterResult | atpbar/machine.py:16-19 | `find_reporter` gives a reporter from Initial and Started (Started's own, Initial's when it had one), Registered's own, and none from Disabled |
| Lifecycle.CloseUseKeepsGood | atpbar/machine.py:129-136 | releasing a use of the current Started state never raises, keeps the invariant, and restarts exactly when an outermost use ends undetached |
| Lifecycle.ShutdownDuringUseRaises | atpbar/machine.py:106-109 | after an outermost acquisition and a `shutdown`, with no `detach` between them, that use's release raises because the old object's pickup is gone |
| Lifecycle.ShutdownAfterDetachKept | atpbar/machine.py:131-134 | after an outermost acquisition, a `detach` and a `shutdown`, that use's release clears both flags and ends `Kept`, touching no pickup |
| Machine.Runtime.NewObject | atpbar/machine.py:96-97 | a new queue or reporter gets a fresh identity |
| Machine.Runtime.LaunchPickup | atpbar/machine.py:103-104 | a new pickup gets a fresh identity and is alive |
| Machine.Runtime.StopPickup | atpbar/machine.py:107-108 | the pickup is no longer alive and one more is counted as ended |
| Machine.Started.constructor | atpbar/machine.py:87-99 | the new object's fields and the foreign world are as `Construct` gives them |
| Machine.Started.StartPickup | atpbar/machine.py:101-104 | the object and the world are updated as `StartPickup` gives them |
| Machine.Started.EndPickup | atpbar/machine.py:106-109 | updates as `EndPickup` gives; where it raises, nothing changes |
| Machine.Started.RestartPickup | atpbar/machine.py:111-113 | updates as `RestartPickup` gives; where it raises, nothing changes |
| Machine.Started.BeginFetch | atpbar/machine.py:115-127 | yields the object's reporter; the flags and the branch taken are as `Acquire` gives; nothing else changes |
| Machine.Started.EndFetch | atpbar/machine.py:129-136 | the object, the world and the ending are as `CloseUse` gives |
| Machine.Started.Detach | atpbar/machine.py:138-156 | only `to_restart_pickup` changes, to false |
| Machine.Started.Flush | atpbar/machine.py:158-160 | restarts the pickup as `RestartPickup` gives and stays this state |
| Machine.Started.Shutdown | atpbar/machine.py:162-164 | ends the pickup as `EndPickup` gives and returns Initial with this object's reporter and queue |
| Machine.ReporterOf | atpbar/machine.py:19 | the `reporter` attribute of the held state, the same as `HeldReporter` of its value |
| Machine.StateMachine.constructor | atpbar/machine.py:12-14 | starts in Initial with neither reporter nor queue, no foreign object created, invariant established |
| Machine.StateMachine.PrepareReporter | atpbar/machine.py:18 | replaces the state as `prepare_reporter` gives; a Started state stays the same object, Initial gives a new one; keeps `Valid` |
| Machine.StateMachine.FindReporter | atpbar/machine.py:16-19 | prepares as `prepare_reporter` gives and returns the reporter of the resulting state |
| Machine.StateMachine.RegisterReporter | atpbar/machine.py:21-22 | the state becomes Registered with the given reporter, from any state, with the world untouched |
| Machine.StateMachine.Flush | atpbar/machine.py:24-26 | replaces the state as `flush` gives; a Started state stays the same object |
| Machine.StateMachine.Disable | atpbar/machine.py:28-29 | the state becomes Disabled, from any state, with the world untouched |
| Machine.StateMachine.Shutdown | atpbar/machine.py:31-33 | replaces the state as `shutdown` gives; the old Started object is left without a pickup |
| Machine.StateMachine.BeginFetch | atpbar/machine.py:35-38 | prepares, then yields the new state's reporter; for Started the flags and branch are as `Acquire` gives, and the ticket names that Started object |
| Machine.StateMachine.EndFetch | atpbar/machine.py:38 | the release runs on the ticket's Started object, as `CloseUse` gives, even if that object is no longer the state; it never raises when the object is still the state; a plain ticket changes nothing |
| Machine.StateMachine.Detach | atpbar/machine.py:138-156 | `detach` on a Started object the machine created clears only its restart flag and keeps `Valid` |
| Scenarios.FirstFind | atpbar/machine.py:16-19 | the first `find_reporter` returns a reporter |
| Scenarios.NestedLoops | atpbar/machine.py:121-136 | of two nested main-thread loops, the inner one ends without a restart and the outer one restarts the pickup |
| Scenarios.WorkerLoop | atpbar/machine.py:117-119 | a loop off the main thread ends without a restart |
| Scenarios.DetachedLoop | atpbar/machine.py:133-136 | an outermost loop during which `detach` ran ends without a restart |
| Scenarios.ShutdownThenFind | atpbar/machine.py:162-164 | `find_reporter` after `shutdown` returns the same reporter as before |
| Scenarios.RegisteredUse | atpbar/machine.py:167-178 | a registered reporter is yielded as it is, and flush, shutdown and the end of the use do nothing |
| Scenarios.DisabledUse | atpbar/machine.py:180-184 | a disabled machine yields no reporter |
| Scenarios.ShutdownInsideLoop | atpbar/machine.py:129-136 | a `shutdown` inside the outermost loop, with no `detach` before it, makes the end of that loop raise |
| Scenarios.DetachedShutdownInsideLoop | atpbar/machine.py:131-136 | a `detach` before a `shutdown` inside the outermost use makes its end `Kept`: the `finally` returns before `_end_pickup` |

## Left out

- **The lock.** `threading.Lock` and its acquisition are left out because the model is sequential. Every lock-guarded step is one atomic method. `register_reporter` and `disable` take no lock in the code, and in a sequential model they are atomic too.
- **Foreign objects.** `multiprocessing.Queue`, `ProgressReporter`, `ProgressReportPickup` and `create_presentation` are opaque identities with ghost counts of pickups started and ended. The presentation object is not modelled. Failures of these objects, such as a pickup that cannot start or a `join` that hangs, are not modelled either.
- **The sentinel.** The `None` that `_end_pickup` puts on the queue is reduced to "the pickup has ended". When `_end_pickup` raises after putting it (queue present, pickup `None`), the model does not capture the sentinel left on the queue. That sentinel stops whichever pickup next reads that queue. This happens when `shutdown` runs during an outermost main-thread loop and `find_reporter`, `fetch_reporter` or `flush` then builds a new Started state on the same queue before the loop ends. The new state's running pickup then receives the sentinel and exits. Otherwise the next pickup started on that queue exits. `Good` and `StateMachine.Valid()` still count that exited pickup as alive, because the model ends a pickup only through `_end_pickup`.
- **`in_main_thread()`** is a boolean parameter of `BeginFetch`.
- **Generator mechanics** (`yield`, `yield from`) become `BeginFetch` and `EndFetch`. The model does not check that a caller ends each use exactly once, and only a Started use is tracked.
- Machine.Started.EndFetch: its `Ending` does not represent an exception the caller throws into the generator at the `yield` (line 130). The code discards that exception on the suppressed-restart path, through the `return` inside `finally` at line 134, and the `yield from` at line 38 then finishes normally. When the restart raises, the `AttributeError` from line 108 replaces it. The model has no notion of the caller's exception.
- **`detach` from the pickup thread** becomes a method a caller may run between `BeginFetch` and `EndFetch`. It is not asynchronous. `Machine.StateMachine.Detach` is a wrapper with no counterpart in the code. It lets a caller run `Started.detach` while the machine's invariant stays known.
- **Protocol.Run** releases the most recently opened use first, as nested loops on one thread do. Other release orders are not covered by the trace lemmas. Examples are two loops zipped together, or loops on other threads. The machine-level `EndFetch` does accept any order.
- **Reporters and states** are identities or `None`, not arbitrary Python objects.

