/** The thread-pool runtime as an object: built while workers may already be starting, waited
    for through its tracker, and torn down in the order that the language derives. */
module ThreadPool {
  import Q = Programs
  import P = Protocol
  import I = Interleaving
  import V = Liveness
  import T = Tracker
  import C = CurrentThread
  import opened Wrappers
  import opened Teardown
  import opened Lifecycle
  import opened LifecycleProofs

  /** Whether tokio lets a call that blocks begin: not in a thread that has 0.1 defaults already,
      nor in one that runs asynchronous code. */
  datatype Admission = Admitted | HasDefaults | IsAsync

  /** What the owning thread does when it lets the runtime go by `route`: `shutdown_on_idle` sets its guards before. */
  ghost function Ending(route: Route): set<Label> {
    {Main, Close(TeardownOf(route))} + if route == Route.ShutdownOnIdle then {SetDefaults} else {}
  }

  /** Refused its first guard, `shutdown_on_idle` has fewer locals to drop. */
  function RouteFor(admission: Admission): Route {
    if admission == HasDefaults then RefusedShutdown else Route.ShutdownOnIdle
  }

  class Runtime {
    const idle: T.Tracker
    const own: Spawner
    var stage: Stage
    var background: ThreadState
    var pool: PoolState
    var cell: Cell
    var lock: Lock
    var owns: bool
    var strong: nat
    var handles: nat
    var callback: bool
    var workers: seq<Worker>
    var executors: nat
    var guards: set<Guard>

    ghost function Life(): State
      reads this
    {
      State(Flavour.ThreadPool, own, stage, background, pool, cell, lock, owns, strong, handles, callback, workers,
            executors, guards, false)
    }

    ghost predicate Valid()
      reads this
    {
      Good(Life())
    }

    /** The owner has let go of everything: clients may still have handles, nobody else. */
    predicate IsGone()
      reads this
    {
      && stage == Closing([]) && pool == Dropped && background == Joined && cell == Freed
      && handles == executors && forall i :: 0 <= i < |workers| ==> workers[i].Stopped?
    }

    constructor (own: Spawner)
      ensures this.own == own && Life() == Initial(Flavour.ThreadPool, own)
      ensures fresh(idle) && idle.Valid()
      ensures idle.waiter == P.Outside && idle.tasks == [] && idle.roots == 0
    {
      var tracker := T.New();
      idle := tracker;
      this.own := own;
      stage, background, pool, cell, lock, owns := Begin, NotStarted, Unbuilt, Unallocated, Free, false;
      strong, handles, callback, workers, executors, guards := 0, 0, false, [], 0, {};
    }

    // ---------------------------------------------------------------- building

    /** `Builder::build`, with workers starting from the moment the inner `build` is called. */
    method Build()
      requires Life() == Initial(Flavour.ThreadPool, own)
      modifies this
      ensures Valid() && stage == Ready && executors == 0 && guards == {}
      ensures Lives(old(Life()), Life(), {Main})
    {
      ghost var start := Life();
      InitialIsGood(Flavour.ThreadPool, own);
      Stays(start, {Main});
      Advance(start);  // the background thread
      Advance(start);  // the cell, locked; the inner `build` begins
      Interfere(start, {Main});
      Advance(start);  // it returns the pool
      Interfere(start, {Main});
      Advance(start);  // the spawner in the cell
      Interfere(start, {Main});
      Advance(start);  // unlocked
      Interfere(start, {Main});
    }

    /** The next step of `build`. */
    method Advance(ghost start: State)
      requires Valid() && !stage.Ready? && !stage.Closing? && Lives(start, Life(), {Main})
      modifies this
      ensures Valid() && Life() == Next(old(Life()), Main) && Lives(start, Life(), {Main})
    {
      GoodStep(Life(), Main);
      Step(start, Life(), Main, {Main});
      BuildOn();
    }

    method BuildOn()
      requires !stage.Ready? && !stage.Closing?
      modifies this
      ensures Life() == MainNext(old(Life()))
    {
      match stage
      case Begin => stage, background := BackgroundUp, Active;
      case BackgroundUp => stage, pool, cell, owns, strong, lock := Locked, Building, Alive(Empty), true, 1, Writing;
      case Locked => stage, pool, handles, callback := PoolUp, Serving, handles + 1, true;
      case PoolUp => stage, cell, handles := CellSet, Alive(Holds(own)), handles + 1;
      case CellSet => stage, lock := Ready, Free;
    }

    /** For a while, workers start and take any steps they can, and clients clone and drop the
        handles they have. */
    method Interfere(ghost start: State, ghost may: set<Label>)
      requires Valid() && Lives(start, Life(), may)
      modifies this`lock, this`strong, this`cell, this`handles, this`workers, this`executors
      ensures Valid() && Lives(start, Life(), may) && (old(executors) == 0 ==> executors == 0)
    {
      var budget: nat := *;
      while budget > 0
        invariant Valid() && Lives(start, Life(), may) && (old(executors) == 0 ==> executors == 0)
      {
        budget := budget - 1;
        Disturb(start, may);
      }
    }

    method Disturb(ghost start: State, ghost may: set<Label>)
      requires Valid() && Lives(start, Life(), may)
      modifies this`lock, this`strong, this`cell, this`handles, this`workers, this`executors
      ensures Valid() && Lives(start, Life(), may) && (old(executors) == 0 ==> executors == 0)
    {
      ghost var s := Life();
      var choice: nat := *;
      if choice == 0 && (pool == Building || pool == Serving) {
        Step(start, s, Start, may);
        Add();
      } else if choice == 1 && executors > 0 {
        Step(start, s, Label.Hand, may);
        Hand();
      } else if choice == 2 && executors > 0 {
        Step(start, s, Label.Return, may);
        Return();
      } else if i :| 0 <= i < |workers| && CanMove(Flavour.ThreadPool, workers[i], lock) {
        Step(start, s, Work(i), may);
        WorkerStep(i);
      }
    }

    /** The pool starts a worker. */
    method Add()
      requires Valid() && (pool == Building || pool == Serving)
      modifies this`workers
      ensures Valid() && Life() == Next(old(Life()), Start)
    {
      GoodStep(Life(), Start);
      workers := workers + [Starting];
    }

    /** `Runtime::executor`, or a clone of what it returned. */
    method Hand()
      requires Valid() && (stage == Ready || executors > 0)
      modifies this`handles, this`executors
      ensures Valid() && Life() == Next(old(Life()), Label.Hand)
    {
      ghost var s := Life();
      GoodStep(s, Label.Hand);
      handles, executors := handles + 1, executors + 1;
      assert Life() == Next(s, Label.Hand);
    }

    method Return()
      requires Valid() && executors > 0
      modifies this`handles, this`executors
      ensures Valid() && Life() == Next(old(Life()), Label.Return)
    {
      ghost var s := Life();
      GoodStep(s, Label.Return);
      handles, executors := Dec(handles), executors - 1;
      assert Life() == Next(s, Label.Return);
    }

    // ---------------------------------------------------------------- workers

    /** The next step of worker `i`. */
    method WorkerStep(i: nat)
      requires Valid() && i < |workers| && CanMove(Flavour.ThreadPool, workers[i], lock)
      modifies this`lock, this`strong, this`cell, this`handles, this`workers
      ensures Valid() && Life() == Next(old(Life()), Work(i))
    {
      GoodStep(Life(), Work(i));
      WorkerHasWhatItNeeds(Life(), i);
      RunHook(i);
    }

    /** In the hook given to `on_thread_start`, or in the one for `on_thread_stop`: no panic, given
        what a worker always has. */
    method RunHook(i: nat)
      requires i < |workers| && CanMove(Flavour.ThreadPool, workers[i], lock)
      requires WorkerIsSafe(Life(), i) && Referred(Life(), workers[i])
      modifies this`lock, this`strong, this`cell, this`handles, this`workers
      ensures Life() == WorkNext(old(Life()), i)
    {
      match workers[i]
      case Starting => Upgrade(i);
      case Upgraded => TakeLock(i);
      case Locking => SetGuards(i);
      case Cloned(_) => EndHook(i);
      case Installed(_) => UnsetGuards(i);
    }

    /** `upgrade().expect(..)` */
    method Upgrade(i: nat)
      requires i < |workers| && strong > 0
      modifies this`strong, this`workers
      ensures strong == old(strong) + 1 && workers == old(workers)[i := Upgraded]
    {
      strong := strong + 1;
      workers := workers[i := Upgraded];
    }

    /** `sender.read()` */
    method TakeLock(i: nat)
      requires i < |workers| && lock != Writing
      modifies this`lock, this`workers
      ensures lock == (if old(lock).Reading? then Reading(old(lock).n + 1) else Reading(1)) && workers == old(workers)[i := Locking]
    {
      lock := if lock.Reading? then Reading(lock.n + 1) else Reading(1);
      workers := workers[i := Locking];
    }

    /** `as_ref().expect(..).clone()`, then `set_guards` */
    method SetGuards(i: nat)
      requires i < |workers| && cell.Alive? && cell.content.Holds?
      modifies this`handles, this`workers
      ensures handles == old(handles) + 1 && workers == old(workers)[i := Cloned(cell.content.spawner)]
    {
      handles := handles + 1;
      workers := workers[i := Cloned(cell.content.spawner)];
    }

    /** The hook returns, and its lock and its strong reference go: never the last one. */
    method EndHook(i: nat)
      requires i < |workers| && workers[i].Cloned? && strong >= 2
      modifies this`lock, this`strong, this`workers
      ensures strong == old(strong) - 1 >= 1 && workers == old(workers)[i := Installed(old(workers)[i].spawner)]
      ensures lock == match old(lock) case Reading(n) => (if n <= 1 then Free else Reading(n - 1)) case other => other
    {
      lock := match lock case Reading(n) => (if n <= 1 then Free else Reading(n - 1)) case other => other;
      workers := workers[i := Installed(workers[i].spawner)];
      strong := strong - 1;
    }

    /** `unset_guards` */
    method UnsetGuards(i: nat)
      requires i < |workers|
      modifies this`handles, this`workers
      ensures handles == Dec(old(handles)) && workers == old(workers)[i := Stopped]
    {
      handles := Dec(handles);
      workers := workers[i := Stopped];
    }

    // ---------------------------------------------------------------- letting go

    /** Dropping the runtime, by `shutdown_now`, at the end of `shutdown_on_idle`, or plainly, with
        workers running and clients holding handles meanwhile. */
    method Close(route: Route)
      requires Valid() && stage == Ready && Suits(route, Life())
      modifies this
      ensures Valid() && IsGone() && (old(executors) == 0 ==> executors == 0)
      ensures Lives(old(Life()), Life(), Ending(route))
    {
      ghost var start := Life();
      BeginClose(route);
      while stage.todo != []
        invariant Valid() && stage.Closing? && (old(executors) == 0 ==> executors == 0)
        invariant Lives(start, Life(), Ending(route))
        decreases StageSteps(stage, background)
      {
        LetGo(start, Ending(route));
      }
      HandlesReachZero(Life());
    }

    /** What the owner has to drop, and in which order. */
    method BeginClose(route: Route)
      requires Valid() && stage == Ready && Suits(route, Life())
      modifies this`stage
      ensures Valid() && stage == Closing(TeardownOf(route)) && Lives(old(Life()), Life(), Ending(route))
    {
      ghost var s, close := Life(), Label.Close(TeardownOf(route));
      RouteFits(s, route);
      GoodStep(s, close);
      Stays(s, Ending(route));
      Step(s, s, close, Ending(route));
      stage := Closing(TeardownOf(route));
      assert Life() == Next(s, close);
    }

    method LetGo(ghost start: State, ghost may: set<Label>)
      requires Valid() && stage.Closing? && stage.todo != [] && Lives(start, Life(), may) && Main in may
      modifies this
      ensures Valid() && stage.Closing? && (old(executors) == 0 ==> executors == 0)
      ensures Lives(start, Life(), may)
      ensures StageSteps(stage, background) < old(StageSteps(stage, background))
    {
      AwaitHead(start, may);
      Step(start, Life(), Main, may);
      DropHead();
    }

    /** The others go on meanwhile; a pool that is dropped waits for its workers. */
    method AwaitHead(ghost start: State, ghost may: set<Label>)
      requires Valid() && stage.Closing? && stage.todo != [] && Lives(start, Life(), may)
      modifies this`lock, this`strong, this`cell, this`handles, this`workers, this`executors
      ensures Valid() && (old(executors) == 0 ==> executors == 0) && Lives(start, Life(), may)
      ensures stage.todo[0] == Pool ==> forall i :: 0 <= i < |workers| ==> Ended(workers[i])
    {
      Interfere(start, may);
      if stage.todo[0] == Pool {
        JoinWorkers(start, may);
      }
    }

    /** The pool tells its workers to stop, and waits until they have. */
    method JoinWorkers(ghost start: State, ghost may: set<Label>)
      requires Valid() && stage.Closing? && Lives(start, Life(), may)
      modifies this`lock, this`strong, this`cell, this`handles, this`workers
      ensures Valid() && Lives(start, Life(), may) && forall i :: 0 <= i < |workers| ==> Ended(workers[i])
    {
      while exists i :: 0 <= i < |workers| && !Ended(workers[i])
        invariant Valid() && Lives(start, Life(), may)
        decreases WorkersSteps(workers)
      {
        var i :| 0 <= i < |workers| && !Ended(workers[i]);
        StepsStep(Life(), Label.Work(i));
        Step(start, Life(), Label.Work(i), may);
        WorkerStep(i);
      }
    }

    method DropHead()
      requires Valid() && stage.Closing? && stage.todo != []
      requires stage.todo[0] == Pool ==> forall i :: 0 <= i < |workers| ==> Ended(workers[i])
      modifies this
      ensures Valid() && stage.Closing? && Life() == Next(old(Life()), Main) && executors == old(executors)
      ensures StageSteps(stage, background) < old(StageSteps(stage, background))
    {
      GoodStep(Life(), Main);
      MainSteps(Life());
      DropValueAtHead();
    }

    /** The next value is dropped. `Drop for Background` signals its thread, and then joins it. */
    method DropValueAtHead()
      requires stage.Closing? && stage.todo != []
      modifies this
      ensures stage.Closing? && Life() == DropNext(old(Life()), old(stage).todo[0], old(stage).todo[1..])
    {
      var r := stage.todo[0];
      if r != Background || background != Active {
        stage := Closing(stage.todo[1..]);
      }
      match r
      case Guarding(g) =>
        guards := guards - {g};
        handles := if g == ExecutorGuard then Dec(handles) else handles;
      case Pool => pool, handles := Dropped, Dec(handles);
      case LocalTasks =>
      case Background => background := if background == Active then Signalled else Joined;
      case CellRef =>
        owns := false;
        if strong == 1 {
          handles := if cell.Alive? && cell.content.Holds? then Dec(handles) else handles;
          cell := Freed;
        }
        strong := Dec(strong);
    }

    // ---------------------------------------------------------------- the client's calls

    /** `Runtime::spawn_std`. */
    method SpawnStd(body: Q.Prog)
      requires idle.Valid() && idle.waiter == P.Outside
      modifies idle
      ensures idle.Valid() && idle.waiter == P.Outside
      ensures idle.Abs() == P.Next(old(idle.Abs()), P.Root(true, body))
    {
      idle.Spawn(body);
    }

    /** The guards of the calling thread, whose spawner holds a handle to the pool. */
    method SetDefault()
      requires Valid() && stage == Ready && guards == {}
      modifies this`handles, this`guards
      ensures Valid() && guards == ALL_GUARDS && Life() == Next(old(Life()), SetDefaults)
    {
      GoodStep(Life(), SetDefaults);
      handles, guards := handles + 1, ALL_GUARDS;
    }

    method ResetDefault()
      requires Valid() && stage == Ready && guards == ALL_GUARDS
      modifies this`handles, this`guards
      ensures Valid() && guards == {} && Life() == Next(old(Life()), ResetDefaults)
    {
      GoodStep(Life(), ResetDefaults);
      handles, guards := Dec(handles), {};
    }

    /** `Runtime::block_on_std`. The reserve comes first: where tokio does not admit the call, in
        a thread that runs asynchronous code already, it is lost. */
    method BlockOnStd<V>(body: Q.Prog, output: V, admitted: bool, outside: seq<P.Label>)
      returns (e: C.Ending, v: Option<V>)
      requires Valid() && stage == Ready && guards == {}
      requires idle.Valid() && idle.waiter == P.Outside && T.AllForeign(outside) && P.Drop(|idle.tasks|) !in outside
      modifies this`lock, this`strong, this`cell, this`handles, this`workers, this`executors, this`guards, idle
      ensures Valid() && stage == Ready && guards == {} && idle.Valid() && idle.waiter == P.Outside
      ensures Lives(old(Life()), Life(), {SetDefaults, ResetDefaults}) && (old(executors) == 0 ==> executors == 0)
      ensures e == if admitted && !Q.Panics(body) then C.Returned else C.Unwound
      ensures v == if e == C.Returned then Some(output) else None
      ensures admitted ==> C.Settles(P.Next(old(idle.Abs()), P.Root(true, body)), idle.Abs(), outside)
      ensures admitted ==> T.Leads(P.Next(old(idle.Abs()), P.Root(true, body)), idle.Abs(), outside)
      ensures !admitted ==> idle.Abs() == C.Refused(old(idle.Abs()), body) && !V.Safe(idle.Abs())
    {
      ghost var start := Life();
      Enter({SetDefaults, ResetDefaults});
      if admitted {
        e := C.BlockOnTracked(idle, body, outside);
      } else {
        C.RefuseTracked(idle, body);
        e := C.Unwound;
      }
      Step(start, Life(), ResetDefaults, {SetDefaults, ResetDefaults});
      ResetDefault();
      v := if e == C.Returned then Some(output) else None;
    }

    /** `Runtime::shutdown_on_idle`: the pool is torn down only once `idle` has returned, and
        whether it does is settled when the call is made. A call that is refused unwinds, and
        tears the runtime down without waiting. `end` is what the tracker is left with. */
    method ShutdownOnIdle(admission: Admission, outside: seq<P.Label>) returns (e: C.Ending, ghost end: P.State)
      requires Valid() && stage == Ready && guards == {}
      requires idle.Valid() && idle.waiter == P.Outside && T.AllForeign(outside)
      modifies this, idle
      ensures Valid() && idle.Abs() == end && I.Sound(end)
      ensures (e == C.Unwound <==> admission != Admitted) && (e == C.Unwound ==> IsGone() && end == old(idle.Abs()))
      ensures admission == Admitted ==> (e == C.Returned <==> Q.Sum(Q.Lost, end.tasks) == 0)
      ensures e == C.Returned ==> end.counter == 0 && T.AllDone(end) && IsGone()
      ensures e == C.Returned ==> V.Safe(old(idle.Abs()))
      ensures admission == Admitted && V.Sturdy(old(idle.Abs())) && T.AllTame(outside) ==> e == C.Returned
      ensures admission == Admitted && V.Harmless(old(idle.Abs())) && T.AllTame(outside) ==>
                (e == C.Returned <==> V.Safe(old(idle.Abs())))
      ensures e == C.Hangs ==> stage == Ready && Lives(old(Life()), Life(), {SetDefaults})
      ensures e != C.Hangs ==> Lives(old(Life()), Life(), Ending(RouteFor(admission)))
      ensures admission == Admitted ==> C.Settles(old(idle.Abs()), end, outside)
      ensures admission == Admitted ==> T.Leads(P.Next(old(idle.Abs()), P.Call), end, outside)
      ensures old(executors) == 0 ==> executors == 0
    {
      ghost var start := Life();
      if admission == HasDefaults {
        // the first guard; the spawner goes with the other locals
        e, end := C.Unwound, idle.Abs();
        Close(Route.RefusedShutdown);
      } else {
        Enter({SetDefaults});
        if admission == IsAsync {
          e, end := C.Unwound, idle.Abs();
        } else {
          e, end := Wait(outside);
        }
        if e != C.Hangs {
          Finish(start);
        }
      }
    }

    /** The guards are set, and the workers go on. */
    method Enter(ghost may: set<Label>)
      requires Valid() && stage == Ready && guards == {} && SetDefaults in may
      modifies this`lock, this`strong, this`cell, this`handles, this`workers, this`executors, this`guards
      ensures Valid() && guards == ALL_GUARDS && (old(executors) == 0 ==> executors == 0)
      ensures Lives(old(Life()), Life(), may)
    {
      ghost var start := Life();
      Stays(start, may);
      Step(start, start, SetDefaults, may);
      SetDefault();
      Interfere(start, may);
    }

    /** The rest of `shutdown_on_idle`. */
    method Finish(ghost start: State)
      requires Valid() && stage == Ready && guards == ALL_GUARDS && Lives(start, Life(), {SetDefaults})
      modifies this
      ensures Valid() && IsGone() && (old(executors) == 0 ==> executors == 0)
      ensures Lives(start, Life(), Ending(Route.ShutdownOnIdle))
    {
      ghost var closing := Life();
      Close(Route.ShutdownOnIdle);
      LivesOn(start, closing, Life(), {SetDefaults}, Ending(Route.ShutdownOnIdle), Ending(Route.ShutdownOnIdle));
    }

    /** `runtime.block_on(self.idle_rx.idle())`. */
    method Wait(outside: seq<P.Label>) returns (e: C.Ending, ghost end: P.State)
      requires idle.Valid() && idle.waiter == P.Outside && T.AllForeign(outside)
      modifies idle
      ensures idle.Abs() == end && I.Sound(end) && e != C.Unwound
      ensures e == C.Returned <==> Q.Sum(Q.Lost, end.tasks) == 0
      ensures e == C.Returned ==> end.counter == 0 && T.AllDone(end)
      ensures e == C.Returned ==> V.Safe(old(idle.Abs()))
      ensures V.Sturdy(old(idle.Abs())) && T.AllTame(outside) ==> e == C.Returned
      ensures V.Harmless(old(idle.Abs())) && T.AllTame(outside) ==> (e == C.Returned <==> V.Safe(old(idle.Abs())))
      ensures C.Settles(old(idle.Abs()), end, outside)
      ensures T.Leads(P.Next(old(idle.Abs()), P.Call), end, outside)
    {
      e := C.RunTracked(idle, outside);
      end := idle.Abs();
    }
  }

  lemma WorkerHasWhatItNeeds(s: State, i: nat)
    requires Good(s) && i < |s.workers|
    ensures WorkerIsSafe(s, i) && Referred(s, s.workers[i])
  {
    assert OrderlyWorker(s, s.workers[i]);
    StartUpFacts(s, i);
    OwnerStillRefers(s, i);
  }

  /** A new runtime with its first root. */
  method SpawnFirst(body: Q.Prog, own: Spawner) returns (r: Runtime, ghost start: P.State)
    ensures fresh(r) && fresh(r.idle) && r.Valid() && r.stage == Ready && r.guards == {} && r.executors == 0
    ensures Lives(Initial(Flavour.ThreadPool, own), r.Life(), {Main})
    ensures r.idle.Valid() && r.idle.waiter == P.Outside
    ensures start.tasks == [] && start.roots == 0 && start.waiter == P.Outside
    ensures r.idle.Abs() == P.Next(start, P.Root(true, body))
  {
    r := new Runtime(own);
    start := r.idle.Abs();
    r.Build();
    r.SpawnStd(body);
  }

  /** The rest of `run_std`, on a new runtime with its first root. */
  method ShutdownFirst(r: Runtime, body: Q.Prog, admission: Admission, ghost start: P.State) returns (e: C.Ending)
    requires r.Valid() && r.stage == Ready && r.guards == {} && r.executors == 0
    requires r.idle.Valid() && r.idle.waiter == P.Outside && start.tasks == [] && start.roots == 0
    requires r.idle.Abs() == P.Next(start, P.Root(true, body))
    modifies r, r.idle
    ensures r.Valid() && I.Sound(r.idle.Abs()) && (e == C.Unwound <==> admission != Admitted)
    ensures admission == Admitted ==> T.Leads(P.Next(old(r.idle.Abs()), P.Call), r.idle.Abs(), [])
    ensures e == C.Returned ==> C.Completed(r.idle.Abs()) == C.WholeTree(body) && r.idle.spawned == 0
    ensures e != C.Hangs ==> r.IsGone() && r.handles == 0
    ensures Lives(old(r.Life()), r.Life(), if e == C.Hangs then {SetDefaults} else Ending(RouteFor(admission)))
    ensures admission == Admitted ==> (e == C.Returned <==> Q.Sum(Q.Lost, r.idle.tasks) == 0)
    ensures e == C.Returned ==> Q.CountedTotal(body)
    ensures admission == Admitted && Q.TreeTotal(body, true) ==> e == C.Returned
    ensures admission == Admitted && Q.Separated(body) ==> (e == C.Returned <==> Q.CountedTotal(body))
  {
    ghost var s := r.idle.Abs();
    ghost var end;
    e, end := r.ShutdownOnIdle(admission, []);
    ghost var gone := r.IsGone();
    assert e != C.Hangs ==> gone && r.handles == 0;
    FirstEnds(s, start, body, admission, e, end);
  }

  lemma FirstEnds(s: P.State, start: P.State, body: Q.Prog, admission: Admission, e: C.Ending, end: P.State)
    requires e == C.Returned ==> admission == Admitted
    requires start.tasks == [] && start.roots == 0 && s == P.Next(start, P.Root(true, body))
    requires admission == Admitted ==> C.Settles(s, end, [])
    requires e == C.Returned ==> V.Safe(s) && T.AllDone(end)
    requires admission == Admitted && V.Sturdy(s) ==> e == C.Returned
    requires admission == Admitted && V.Harmless(s) ==> (e == C.Returned <==> V.Safe(s))
    ensures e == C.Returned ==> C.Completed(end) == C.WholeTree(body) && Q.CountedTotal(body)
    ensures admission == Admitted && Q.TreeTotal(body, true) ==> e == C.Returned
    ensures admission == Admitted && Q.Separated(body) ==> (e == C.Returned <==> Q.CountedTotal(body))
  {
    if admission == Admitted {
      C.FirstRootEnds(start, body, end, e == C.Returned);
    }
  }

  /** `run_std` of the thread pool: spawn, shut down on idle. Admitted, it returns only if no
      counted task of the tree panics; then the whole counted tree is complete, every worker has
      stopped, and no handle keeps the pool alive. */
  method RunStd(body: Q.Prog, own: Spawner, admission: Admission)
    returns (e: C.Ending, r: Runtime, ghost start: P.State, ghost between: State)
    ensures r.Valid() && I.Sound(r.idle.Abs()) && (e == C.Unwound <==> admission != Admitted)
    ensures start.tasks == [] && start.roots == 0 && start.waiter == P.Outside
    ensures Lives(Initial(Flavour.ThreadPool, own), between, {Main}) && between.stage == Ready
    ensures Lives(between, r.Life(), if e == C.Hangs then {SetDefaults} else Ending(RouteFor(admission)))
    ensures admission == Admitted ==>
              T.Leads(P.Next(P.Next(start, P.Root(true, body)), P.Call), r.idle.Abs(), [])
    ensures e == C.Returned ==> C.Completed(r.idle.Abs()) == C.WholeTree(body) && r.idle.spawned == 0
    ensures e != C.Hangs ==> r.IsGone() && r.handles == 0
    ensures admission == Admitted ==> (e == C.Returned <==> Q.Sum(Q.Lost, r.idle.tasks) == 0)
    ensures e == C.Returned ==> Q.CountedTotal(body)
    ensures admission == Admitted && Q.TreeTotal(body, true) ==> e == C.Returned
    ensures admission == Admitted && Q.Separated(body) ==> (e == C.Returned <==> Q.CountedTotal(body))
  {
    r, start := SpawnFirst(body, own);
    between := r.Life();
    e := ShutdownFirst(r, body, admission, start);
  }
}
