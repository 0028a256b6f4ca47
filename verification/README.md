# Idleness in tokio-compat: a verified model

tokio-compat runs tokio 0.1 and tokio 0.2 code on one runtime. Its `run` and
`shutdown_on_idle` promise to wait until everything that was spawned without a
`JoinHandle` has completed. They rest on a small concurrent protocol: a shared atomic
counter, a channel of tokens, and one waiter that loops over an atomic load and a `recv`.
This project models that protocol and the runtime code whose promises depend on it, and
proves what they promise under every schedule and, for the protocol, under weak memory.

## How the model is laid out

| file | what it holds |
|---|---|
| `Programs.dfy` | futures as finite program trees, tasks, sums over task lists |
| `Protocol.dfy`, `Invariants.dfy` | the protocol as a labelled transition system in which the outcome of the waiter's load is left open, and what every step keeps |
| `Completion.dfy` | from a counter value 0 at some position to complete spawn trees |
| `Interleaving.dfy`, `Liveness.dfy` | loads return the counter: safety, wake-ups, termination, when a call returns, loop bound |
| `WeakMemory.dfy`, `MemoryInvariants.dfy`, `MemoryRuns.dfy`, `MemoryLiveness.dfy`, `Orderings.dfy` | loads may be stale: the same properties over views and release sequences, the relation of the two models, when a call returns, and which orderings are needed |
| `HappensBefore.dfy` | what the views of the weak-memory model mean: exactly happens-before |
| `Uncounted.dfy`, `UncountedMemory.dfy` | tasks with a `JoinHandle` do not interfere, in either model |
| `Tracker.dfy`, `CurrentThread.dfy`, `ThreadPool.dfy` | the tracker and the two runtimes as objects, driven by an adversarial scheduler |
| `Scope.dfy` | the thread-local tracker against lexical scoping, with a log that accounts for every count |
| `Teardown.dfy` | Rust's drop rule applied to the structs and functions that own a runtime's parts |
| `Lifecycle.dfy`, `LifecycleProofs.dfy`, `DropOrders.dfy` | start-up, the lock, reference counts and teardown with any number of workers; which orders of dropping are safe |
| `Wrappers.dfy` | an option type |

A task's `reserved` and `released` fields are the positions of its `fetch_add` and
`fetch_sub` in the modification order of the counter. With them, "the counter read 0 at
position p" means that no task is pending at p, in both memory models, and completion of a
whole spawn tree follows along parents: a child is reserved before its parent is released.

The weak-memory rules are those of ISO C++20, section 6.9.2.1 [intro.races] (coherence,
release sequences) and section 31.4 [atomics.order]: a load returns any entry not older than
the thread knows, a read-modify-write reads the newest entry and appends one, an acquire
synchronizes with every release operation whose release sequence contains the entry read.
The model computes with views; `HappensBefore.ViewsAreHappensBefore` proves that a view holds
exactly what happens before, both ways.

## What came out

* Whether `idle` returns is settled by the state in which it is called. Call a counted task
  unsafe if it was abandoned (it panicked, or was dropped unfinished) or its future is bound to
  abandon itself or a counted task below it. One unsafe task keeps every later `run` or
  `shutdown_on_idle` of that runtime from returning (`Liveness.UnsafeForever`), because
  `Track::with` counts down only after the await; without one, some schedule lets the call
  return (`Liveness.ReturnsUnderSomeSchedule`). Every schedule does if and only if uncounted
  tasks too bring no such task (`Liveness.ReturnsUnderEverySchedule`); where they spawn nothing
  counted the two conditions are one, so that `run(body)` returns if and only if no counted task
  of `body` panics (`CurrentThread.RunEntry`), and how each call of a client ends can be told
  from the calls alone (`CurrentThread.SessionIsSettled`). The documentation of
  `shutdown_on_idle` does not mention failures.
* Under weak memory a stale 0 makes the only difference: a call can return from an unsafe state
  if and only if the waiter may still read a 0 (`MemoryLiveness.ReturnsUnderSomeSchedule`), which
  it cannot once it knows the reserve of every root, or of one above the unsafe task.
* A thread loses a track in exactly these ways (`Scope.CarefulIff`): a counted task panics; the
  future of a `block_on_std` unwinds; a `block_on_std` is refused by tokio after its own reserve,
  which the thread pool's makes before anything can refuse it; and a local spawn through
  `TaskExecutor` where the tracker is set and no local set is current. That is so inside
  `current_thread::Runtime::enter`, and in every task of the inner runtime, such as those of
  `tokio_01::spawn` and `Handle::spawn`: `status` says yes there, the reserve is made, and the
  spawn panics (`Scope.StatusForetells`, and `Scope.YesThenPanic` for an input to
  `current_thread::run`). A later `run` of that runtime hangs.
* Of the orderings in idle.rs, the release of `fetch_sub` and the acquire of the load are
  needed, and together they are enough. The acquire fence after `fetch_sub` makes no
  difference to what a return of `idle` publishes (`Orderings.PublishesIff`), and no ordering
  matters for wake-ups and termination.
* That no worker outlives the background thread hangs on declaration order, one way round in
  `struct Inner` and the other way round in the pattern of `shutdown_on_idle`
  (`DropOrders.FieldsMatter`, `DropOrders.PatternMatters`).
* The documentation of `shutdown_on_idle` also asks that the reactor manages no I/O resource;
  the code waits for the counter alone, and so does the model.

## Assumptions

The channel is unbounded, hands out tokens in order, and a send happens before its receive.
Handing a task to an executor happens before its first step. The counter does not wrap around:
fewer counted tasks are alive than a machine word counts. A future is a finite program; which
task moves next is never assumed. `tokio_executor::enter` fails when the thread is already
entered, and tokio 0.2's `spawn_local` panics where no local set is current. A local set is
current while it polls its own future and its own tasks, and not while the inner runtime polls
one of its tasks (in the earliest 0.2 releases it was current throughout `LocalSet::block_on`,
and a local spawn from such a task was accepted); no other local set is run on the thread. A
panic of a spawned task is caught by its executor. Workers may start as soon as the inner `build` is called,
which does not wait for their hooks; start and stop hooks run once per thread; dropping the pool
waits for its workers. Struct fields are dropped in declaration order, locals in reverse, then
parameters. Builds that fail are not modelled.

## Model

| member | source | states |
|---|---|---|
| `Invariants.GoodStep` | src/runtime/idle.rs:30-73 | Every step, under any load outcome, keeps: counter = live + abandoned counted tasks; queued + pending + consumed tokens = crossings to zero, at most the released tasks; senders = `Idle` handles + undropped tracks; unique task names; a child is reserved between its parent's reserve and release; spawned and unspawned nodes make up each task's whole tree |
| `Invariants.NeverUnderflows` | src/runtime/idle.rs:66-66 | `fetch_sub` always finds at least 1 |
| `Invariants.AccountedStep` | src/runtime/idle.rs:44-73 | The three accounts (counter, tokens, senders) balance after every step |
| `Invariants.CrossesIff` | src/runtime/idle.rs:64-71 | A token is owed for exactly those steps that bring the counter from above 0 to 0, and such a step leaves exactly one task about to send it |
| `Completion.Hereditary` | src/runtime/idle.rs:64-71 | When the counter was 0 at a position, every descendant (through counted parents) of a task reserved by then was reserved and released by then |
| `Completion.TreesDone` | src/runtime/idle.rs:64-71 | The tasks completed below such a task are exactly the counted nodes of its program |
| `Interleaving.ReturnMeansComplete` | src/runtime/idle.rs:52-57 | `idle` returns only when every counted task has completed with its whole counted tree, none running and none abandoned |
| `Interleaving.PositiveUntilComplete` | src/runtime/idle.rs:45-48 | The counter is never negative, and is 0 if and only if every counted tree is complete: no premature zero |
| `Interleaving.SoundRun` | src/runtime/idle.rs:51-72 | Along every run the accounts balance and a waiter blocked at counter 0 has a token queued or about to be sent |
| `Interleaving.Reachable` | src/runtime/idle.rs:31-42 | The same for every run from `Idle::new` |
| `Interleaving.TokensAddUp` | src/runtime/idle.rs:52-71 | Along any run the tokens queued, about to be sent and received since change by exactly the number of times that the counter has gone from above 0 to 0 |
| `Interleaving.ChannelStaysOpen` | src/runtime/idle.rs:20-28 | There is always a sender, so the ignored result of `recv` is never a closure and the loop never spins |
| `Interleaving.MeasureDecreases` | src/runtime/idle.rs:51-72 | Every step of the tasks and the waiter uses up a measure, whatever the load returns |
| `Interleaving.RunsAreBounded` | src/runtime/idle.rs:51-72 | Under every schedule a run without new roots is finite; no fairness is needed |
| `Interleaving.BlockedOnlyByFailure` | src/runtime/idle.rs:52-57 | A waiter in a state where nothing can move waits for an abandoned task |
| `Liveness.ZeroIsStable` | src/runtime/threadpool/mod.rs:307-314 | Without new roots and without counted work under uncounted tasks, a counter at 0 stays at 0 |
| `Liveness.IdleReturnsIff` | src/runtime/idle.rs:51-72 | Every run of a call that can go no further has returned if and only if the call was made in a state without unsafe counted tasks and no counted task was dropped meanwhile |
| `Liveness.SomeMaximalRun` | src/runtime/idle.rs:51-72 | Runs without drops that can go no further exist from every reachable state |
| `Liveness.IdleReturns` | src/runtime/idle.rs:51-72 | When no counted task of the whole tree can fail, every such run returns, at counter 0, within the measure |
| `Liveness.ReturnsUnderSomeSchedule` | src/runtime/idle.rs:51-72 | Some schedule lets a call return if and only if the state it is made in has no unsafe counted task |
| `Liveness.ReturnsUnderEverySchedule` | src/runtime/idle.rs:51-72 | Every schedule lets a call return if and only if in addition no counted task below an uncounted one panics |
| `Liveness.UnsafeForever` | src/runtime/idle.rs:64-71 | An unsafe counted task keeps every present and later call from returning, along any run at all |
| `Liveness.AbandonedForever` | src/runtime/idle.rs:64-71 | An abandoned counted task stays abandoned and keeps every later call of `idle` from returning, whatever is spawned afterwards |
| `Liveness.LoopIsBounded` | src/runtime/idle.rs:52-57 | One call loads at most once more than tokens queued or pending at entry plus the times that the counter goes from above 0 to 0 during the call |
| `MemoryInvariants.CoherentMove` | src/runtime/idle.rs:44-72 | Every weak-memory move keeps: each entry counts the tasks pending at it; each release entry carries its task's writes; a blocked waiter read a non-zero entry no older than any token it consumed, and a newest entry 0 has its token due unless the waiter already knows it |
| `MemoryRuns.ReturnPublishes` | src/runtime/idle.rs:44-72 | When the load reads 0 at position p, every task reserved at or before p (so all the waiter knows of) is complete by p with its whole tree, and all their writes are in the waiter's view |
| `MemoryRuns.StaleWaiterIsWoken` | src/runtime/idle.rs:51-72 | Whatever stale entry was read: blocked with newest entry 0 means that crossing's token is queued or its sender about to send |
| `MemoryRuns.RunsAreBounded` | src/runtime/idle.rs:51-72 | Runs with stale loads are bounded by the same measure |
| `MemoryRuns.LoopIsBounded` | src/runtime/idle.rs:52-57 | With stale loads too, counting the entries that are 0 and were appended during the call |
| `MemoryRuns.CrossingsAreZeros` | src/runtime/idle.rs:64-71 | The tokens that a run owes are the entries of the counter's history, past those it began with, that are 0 |
| `MemoryRuns.ReadsAscend` | src/runtime/idle.rs:52-57 | Over any run, and over any number of calls, the positions that the waiter reads never go back |
| `MemoryRuns.RootedReturnIsCurrent` | src/runtime/idle.rs:52-57 | A waiter that knows the roots' reserves is never deceived by a stale 0: the newest entry is 0 too |
| `MemoryLiveness.IdleReturnsIff` | src/runtime/idle.rs:51-72 | For any orderings and whatever the waiter knows: a run that can go no further has returned if and only if the call was made in a safe state and no counted task was dropped meanwhile, or it read a 0 that was there when it began |
| `MemoryLiveness.RootedReturnsIff` | src/runtime/idle.rs:51-72 | So a waiter that knows every root, or has no 0 ahead, is told as in the interleaving model |
| `MemoryLiveness.ReturnsUnderEverySchedule` | src/runtime/idle.rs:51-72 | With stale loads too, every schedule lets a call return if and only if the state is sturdy |
| `MemoryLiveness.ReturnsUnderSomeSchedule` | src/runtime/idle.rs:51-72 | Some schedule does if and only if the state is safe or the waiter may read a 0 there and then, stale or not |
| `MemoryLiveness.RootedReturnsUnderSomeSchedule` | src/runtime/idle.rs:51-72 | So with known roots, if and only if it is safe |
| `MemoryLiveness.UnsafeForever` | src/runtime/idle.rs:64-71 | With an unsafe task and no 0 to read, that stays so along any run, and no call returns |
| `MemoryLiveness.KnownRootBars` | src/runtime/idle.rs:44-48 | One known root above an unsafe task keeps every 0 away |
| `MemoryRuns.Lift` | src/runtime/idle.rs:44-72 | Every interleaving run is a weak-memory run with newest-entry loads, ending in the same state |
| `MemoryRuns.Project` | src/runtime/idle.rs:44-72 | Every weak-memory run with newest-entry loads is an interleaving run, ending in the same state |
| `Orderings.PublishesIff` | src/runtime/idle.rs:45-69 | Over all choices of orderings, a return of `idle` publishes the writes of the tasks it waited for if and only if `fetch_sub` releases and the load acquires |
| `Orderings.CodePublishes` | src/runtime/idle.rs:45-69 | The orderings in the code do |
| `Orderings.CodeIsWeakest` | src/runtime/idle.rs:45-69 | Orderings publish if and only if `fetch_sub` and the load are each at least as strong as in the code: nothing weaker would do, and nothing stronger is needed |
| `HappensBefore.ViewsAreHappensBefore` | src/runtime/idle.rs:44-72 | From any state with its history of events: a thread's view holds a write, a reserve or an entry if and only if that happens before where the thread now is, through program order, spawning, handing to the executor, the channel, fences, acquired release sequences |
| `HappensBefore.FromBoot` | src/runtime/idle.rs:31-42 | The same for every run from `Idle::new`, where nothing was known before |
| `HappensBefore.LoadsAreCoherent` | src/runtime/idle.rs:52-57 | In any run from `Idle::new`, the waiter's load may return an entry if and only if no access to a later one happens before it |
| `HappensBefore.CompletionIsPublished` | src/runtime/idle.rs:44-72 | All that a counted task knew when it completed, its own writes and what it had learned from any other thread, the waiter knows once it has read a position not before that of the task's `fetch_sub` |
| `Uncounted.EraseKeepsTrace` | src/runtime/threadpool/mod.rs:397-403 | Erasing all steps of `spawn_handle*` tasks that spawn no counted work leaves a run of the runtime without them, with the same trace of counter, queue and waiter |
| `Uncounted.RestoreRun` | src/runtime/current_thread/runtime.rs:161-167 | And every run of the runtime without them, new roots, calls and clones included, is the erasure of a run with them |
| `UncountedMemory.HollowRun` | src/runtime/threadpool/mod.rs:397-403 | Under weak memory too: every run has a counterpart with the same trace of counter, queue, waiter and reads, in which the uncounted tasks take no step and only pass on what they know, and which ends in the same memory but for their own programs and writes |
| `UncountedMemory.HollowFromBoot` | src/runtime/idle.rs:31-42 | The same for every run from `Idle::new` |
| `UncountedMemory.SameSight` | src/runtime/idle.rs:52-57 | In the counterpart every thread is at the same position and has seen the same writes of counted tasks, and the counter's history has the same values |
| `Tracker.Tracker.Spawn` | src/runtime/idle.rs:44-48 | Reserving and spawning a root is the protocol's root step |
| `Tracker.Tracker.Poll` | src/runtime/idle.rs:64-72 | One action of a task, the count-down at its end included, is the protocol's step; counted spawns inside a task reserve first (src/runtime/compat.rs:113-165) |
| `Tracker.Tracker.Notify` | src/runtime/idle.rs:67-70 | The send after a `fetch_sub` that saw 1 is a separate step |
| `Tracker.Tracker.Idle` | src/runtime/idle.rs:52-57 | The loop, against any schedule, any leftover tokens, and roots, drops and clones of handles by other threads: returns if and only if nothing counted is lost in the end, only from a safe state, always from a sturdy one unless others bring a loss; then at 0 with all trees complete, within the iteration bound; otherwise nothing can move; the state it ends in comes of a run of tasks, waiter and those others, and `loads` counts its loads |
| `Tracker.LeadsToItsFate` | src/runtime/current_thread/runtime.rs:356-376 | What a call that waits or blocks leaves comes of steps of tasks, waiter and what others do, so that no future, counted or not, is dropped but by the others, and each is still bound to complete or to fail as before the call |
| `Tracker.Tracker.Drive` | src/runtime/idle.rs:64-72 | Run until one task ends, against any schedule and other threads: it completes if and only if its own future does not panic |
| `CurrentThread.Runtime.SpawnStd` | src/runtime/current_thread/runtime.rs:283-290 | A counted root |
| `CurrentThread.Runtime.BlockOnStd` | src/runtime/current_thread/runtime.rs:331-352 | Returns its future's output exactly when that does not panic, and unwinds exactly when it does; leaves the runtime ready, and its prospects as the new root settles them; and nothing but such steps has happened since that root was spawned |
| `CurrentThread.Runtime.Run` | src/runtime/current_thread/runtime.rs:356-376 | From any ready state: returns only if no counted task is lost or bound to be, then with everything counted complete; always if no task of any tree is; if and only if, where uncounted tasks spawn nothing counted; and nothing but steps of tasks, waiter and other threads has happened meanwhile |
| `CurrentThread.Runtime.Session` | src/runtime/current_thread/runtime.rs:283-376 | Over any sequence of calls, with the tracker's state before and after each: every `run` that returns leaves all counted trees complete, every one that does not waits for a lost task; `block_on` unwinds exactly if its future panics; each call's state follows from the one before by a run |
| `CurrentThread.SessionIsSettled` | src/runtime/current_thread/runtime.rs:283-376 | For calls that keep counted work out of uncounted tasks, how each one ends is a function of the calls alone, under every schedule |
| `CurrentThread.RunEntry` | src/runtime/current_thread/mod.rs:126-133 | `run`: a return means exactly the whole counted tree completed; it returns if and only if no counted task of the body panics (one way each where uncounted tasks spawn counted ones); the state left comes of a run from a new tracker |
| `CurrentThread.RunStdEntry` | src/runtime/current_thread/mod.rs:110-148 | `run_std` and `block_on_all_std`: told from the body, it unwinds if and only if the body itself panics, hangs if and only if another counted task does, and otherwise passes on the body's output with the whole counted tree completed; both calls are runs, one after the other |
| `CurrentThread.CompletedWhole` | src/runtime/current_thread/mod.rs:110-148 | With every counted tree complete, the first root's completed tasks are exactly its program's counted nodes |
| `Scope.Thread.Execute` | src/runtime/current_thread/runtime.rs:331-433 | Any nesting of `block_on`, `run`, `enter`, polls of local and inner tasks, local and 0.1 spawns, panics and catches evaluates as with a lexically scoped tracker, and leaves the thread-locals as found, also on unwinding |
| `Scope.Thread.EnterRuntime` | src/runtime/current_thread/runtime.rs:343-395 | An entry sets the tracker for its body and resets it; a nested one unwinds before reserving; the check for entering twice never fails |
| `Scope.Thread.EnterInVain` | src/runtime/current_thread/runtime.rs:343-352 | An entry that tokio refuses after `enter()` resets everything; refused by an installed reactor or timer it has reserved nothing, later a `block_on` has leaked its reserve |
| `Scope.Thread.EndTask` | src/runtime/idle.rs:64-72 | A counted task that completes counts down, one that panics does not |
| `Scope.Thread.PollTask` | src/runtime/current_thread/runtime.rs:349-376 | `block_on` and `run` poll local and inner tasks, the latter with no local set current; their panics stay with them |
| `Scope.Thread.SpawnOnDefault` | src/runtime/compat.rs:140-165 | A 0.1 spawn inside any entry reserves and goes to the inner runtime |
| `Scope.Thread.SpawnOnCurrent` | src/runtime/current_thread/task_executor.rs:43-53 | A local spawn is accepted, refused or leaks as the scope says: it leaks inside `enter` and in a task of the inner runtime |
| `Scope.Thread.ReserveIdle` | src/runtime/current_thread/runtime.rs:397-405 | Reserves on the thread's tracker, if there is one |
| `Scope.Thread.IsCurrent` | src/runtime/current_thread/runtime.rs:407-411 | Says whether a current-thread runtime has been entered |
| `Scope.CountsAddUp` | src/runtime/current_thread/runtime.rs:331-433 | Over any execution, for every runtime and either of its executors: tasks given = change of live tasks + completed + crashed; tracks lost = crashes + local spawns without a local set + `block_on`s unwound or refused after the reserve; the counter moves with all of them |
| `Scope.OnlyTheEntered` | src/runtime/current_thread/runtime.rs:343-395 | Inside an entry no other runtime is counted on but by spawns that name it, and any nested entry is rejected with all counters unchanged |
| `Scope.LogIsLexical` | src/runtime/current_thread/runtime.rs:343-411 | Every event of any execution fits the scope that the entries, exits and polls before it lead to, and that is in the end the one at the start |
| `Scope.UnwindsIff` | src/runtime/current_thread/runtime.rs:331-433 | Exactly which code unwinds, whatever the counters are |
| `Scope.StatusForetells` | src/runtime/current_thread/task_executor.rs:104-131 | In the log of any execution, a `status` directly followed by a local spawn foretells its answer and the accepting runtime, that entered last and not left; inside `enter` and in a task of the inner runtime, and only there, it says yes and the spawn panics after its reserve |
| `Scope.YesThenPanic` | src/runtime/current_thread/mod.rs:126-133 | The exception on a concrete input to `run`: two tracks lost |
| `Scope.CarefulIff` | src/runtime/current_thread/runtime.rs:331-433 | Exactly the code without a reachable local spawn where no local set is current, an unwinding or late refused `block_on`, or a panicking counted task loses no track, whatever was left over before |
| `Scope.PollSettles` | src/runtime/idle.rs:64-72 | What becomes of a polled task: a counted one that completes counts down by one and is live no more, one that panics is lost with the counter as it was, any other stays as its own code left things; the log says which |
| `Scope.EventsHaveCauses` | src/runtime/current_thread/task_executor.rs:43-131 | Every event in any log is one that the code has a call for: what `execute` is refused, and nothing else, is handed back; what `spawn_local_std` is refused, and nothing else, is an error |
| `Scope.CallsAreAnswered` | src/runtime/current_thread/task_executor.rs:43-131 | Every spawn, `status` and look at a counter, in whatever scope it is made, is answered exactly once; only `Top` turns spawns down; one that is not turned down counts one on its runtime and on no other, and nothing else does |
| `Scope.CounterIsExact` | src/runtime/current_thread/runtime.rs:331-433 | At every moment of any execution the counter that code looks at is the one at the start, as the log up to then changed it |
| `LifecycleProofs.GoodStep` | src/runtime/threadpool/builder.rs:150-212 | Every step keeps: strong cell references, pool handles and lock holders are exactly those of the owner, the cell, the workers, the clients and the guards; what the owner still has to drop is what it holds; whoever needs the background thread or the cell has it |
| `LifecycleProofs.StartUpIsSafe` | src/runtime/threadpool/builder.rs:178-203 | In every interleaving, workers starting during the inner `build` included, for either builder: no worker panics on a dead weak reference or an empty cell, a worker lives only with cell and background thread, and installs this runtime's spawner and tracker |
| `LifecycleProofs.NeverStuck` | src/runtime/threadpool/builder.rs:172-203 | The owning thread or a worker can move, unless everything is let go of and all workers have stopped: no deadlock on the lock or in teardown |
| `LifecycleProofs.LifeIsBounded` | src/runtime/current_thread/builder.rs:64-98 | Under every schedule, building and tearing down take boundedly many steps, five per worker started and seventeen in all besides |
| `LifecycleProofs.HandlesReachZero` | src/runtime/threadpool/builder.rs:157-197 | After teardown the pool handles left are exactly the clients', and one more if and only if the current-thread start hook still holds its strong reference; in the thread pool the cell is freed |
| `LifecycleProofs.PartsMoveOn` | src/runtime/threadpool/builder.rs:150-212 | No step skips a state or goes back: background thread, pool, cell and workers move on one state at a time, handles are given out and returned one at a time, and a guard goes when it is reset or its turn has come |
| `LifecycleProofs.TeardownIsOrdered` | src/runtime/threadpool/mod.rs:488-582 | In every run that lets go as the code does, by any of its routes: the cell and the background thread outlive the pool, the local tasks and the guards; once the background thread is told to stop, no worker is in a hook or has guards |
| `Teardown.RouteOrder` | src/runtime/threadpool/mod.rs:488-582 | The order in which each route drops the guards, pool, local tasks, background thread and cell, derived from declarations by the drop rule |
| `Teardown.RoutesAreOrdered` | src/runtime/current_thread/runtime.rs:27-44 | Each of these orders is one of the safe ones, with nothing dropped twice |
| `DropOrders.OrderMatters` | src/runtime/threadpool/mod.rs:65-73 | For any ready runtime, its workers started or not, and any list of what the owner holds: in every run that drops it in that order all workers, guards and local tasks have what they use, if and only if the background thread comes after pool, guards and local tasks, and the cell after the pool |
| `DropOrders.PatternMatters` | src/runtime/threadpool/mod.rs:490-493 | `shutdown_on_idle` is safe if and only if its pattern binds the background thread before the pool |
| `DropOrders.FieldsMatter` | src/runtime/threadpool/mod.rs:65-73 | Dropping the runtime is safe if and only if `Inner` declares the pool before the background thread |
| `ThreadPool.Runtime.Build` | src/runtime/threadpool/builder.rs:150-212 | With workers starting at any time from the call of the inner `build` on, the build ends ready and balanced, by a run of the life cycle |
| `ThreadPool.Runtime.RunHook` | src/runtime/threadpool/builder.rs:178-197 | The start and stop hooks, step by step, never panic |
| `ThreadPool.Runtime.Close` | src/runtime/threadpool/mod.rs:539-582 | Dropping the runtime by any route, while workers run and clients hold, clone and drop handles: stops all workers, frees the cell, and leaves no handle but the clients', by a run of the life cycle in which the owner lets go in that route's order alone |
| `ThreadPool.Runtime.BlockOnStd` | src/runtime/threadpool/mod.rs:436-448 | Admitted, as for the current-thread runtime; refused by tokio, it has reserved already, and no later `shutdown_on_idle` returns; what workers do meanwhile is a run of the life cycle |
| `ThreadPool.Runtime.ShutdownOnIdle` | src/runtime/threadpool/mod.rs:488-501 | Admitted, tears down only after everything counted is complete; returns only from a safe state, always from a sturdy one, if and only if safe where uncounted tasks spawn nothing counted. Refused, it unwinds and tears down without waiting. Tracker and life cycle end by runs from where the call found them |
| `ThreadPool.RunStd` | src/runtime/threadpool/mod.rs:172-179 | A return means exactly the whole counted tree completed, and no handle keeps the pool alive; admitted, it returns if and only if no counted task of the body panics (one way each where uncounted tasks spawn counted ones); it unwinds if and only if refused; tracker and life cycle end by runs from the initial states |

## Left out

- The internals of tokio 0.1 and 0.2, of futures and of the channel; the reactor, timer, clock and real I/O: foreign code, taken as stated under Assumptions.
- Awaiting other tasks: a task that waits for something is a task that is not picked; whether what it waits for comes is assumed.
- Load buffering: a thread's read-modify-writes take effect in program order in the weak-memory model.
- `Uncounted.EraseKeepsTrace`: does not model weak-memory runs, where an uncounted task may pass on what it has seen and so cannot be erased; `UncountedMemory.HollowRun` is the result there.
- `CurrentThread.Runtime.Run`: does not model a call that is refused; `Scope.Thread.EnterRuntime` and `Scope.Thread.EnterInVain` do.
- `CurrentThread.Runtime.BlockOnStd`: the same.
- `Scope.Thread.Execute`: does not model the wait inside `run`, only what runs on the thread meanwhile; the wait is `CurrentThread.Runtime.Run`. Which threads tokio refuses an entry in is an input (`Deny`), as is `admitted` of `ThreadPool.Runtime.BlockOnStd`.
- `CurrentThread.RunEntry`: does not say if and only if where an uncounted task spawns counted ones; the schedule decides then, as `Liveness.ReturnsUnderSomeSchedule` and `Liveness.ReturnsUnderEverySchedule` say exactly.
- `CurrentThread.RunStdEntry`: the same, for returning and hanging; unwinding is exact always.
- `ThreadPool.RunStd`: the same as `CurrentThread.RunEntry`.
- Conversion between 0.1 and std futures, builder setters, `Debug` and `Display`, the prelude: pass-through.
- `Shutdown` as a future: always ready.
- Failed builds, and the zero-handle result for the current-thread builder while its start hook lives: the hook holds a strong reference there.
