/** Start-up and teardown of a runtime, with any number of worker threads: who holds the shared
    cell with the 0.1 spawner, who holds its lock, and who keeps the pool alive by a handle.

    One labelled system covers both builders. The thread-pool builder gives its start hook a
    weak reference to the cell and keeps the strong one in the runtime; the current-thread
    builder gives the hook a strong reference and keeps none. */
module Lifecycle {
  import opened Teardown

  datatype Flavour = ThreadPool | CurrentThread

  /** Where the thread is that builds, owns and drops the runtime. */
  datatype Stage =
    | Begin
    | BackgroundUp   // `Background::spawn` has returned
    | Locked         // the cell exists, holding nothing, and is locked for writing; the inner `build` is under way
    | PoolUp         // it has returned
    | CellSet        // the spawner is in the cell
    | Ready          // the lock is released and the runtime handed out
    | Closing(todo: seq<Resource>)  // what the owner still has to let go of, in this order

  datatype ThreadState = NotStarted | Active | Signalled | Joined

  /** Workers may start as soon as the pool is being built, and until its drop has finished. */
  datatype PoolState = Unbuilt | Building | Serving | Dropped

  /** The spawner that a worker installs: a handle to a pool, and a tracker. */
  datatype Spawner = Spawner(pool: nat, idle: nat)

  datatype Cell = Unallocated | Alive(content: Content) | Freed
  datatype Content = Empty | Holds(spawner: Spawner)
  datatype Lock = Free | Writing | Reading(n: nat)

  /** A worker in its start hook, at work with its guards installed, stopped, or panicked. */
  datatype Worker =
    | Starting
    | Upgraded                     // holds a strong reference to the cell
    | Locking                      // and its read lock
    | Cloned(spawner: Spawner)     // and its guards are installed
    | Installed(spawner: Spawner)  // lock and reference released: the hook is over
    | Stopped
    | Panicked

  /** `own` is the pool and the tracker that this build creates. */
  datatype State = State(
    flavour: Flavour,
    own: Spawner,
    stage: Stage,
    background: ThreadState,
    pool: PoolState,
    cell: Cell,
    lock: Lock,
    owns: bool,       // the owning thread has a strong reference to the cell
    strong: nat,      // strong references to the cell
    handles: nat,     // strong handles to the pool
    callback: bool,   // the pool still has its start hook
    workers: seq<Worker>,
    executors: nat,   // handles given out: `TaskExecutor`s, `Handle`s
    guards: set<Guard>,  // the owning thread's own
    locals: bool)     // the local set is not dropped

  const ALL_GUARDS: set<Guard> := {TimerGuard, ReactorGuard, ExecutorGuard}

  function Initial(flavour: Flavour, own: Spawner): State {
    State(flavour, own, Begin, NotStarted, Unbuilt, Unallocated, Free, false, 0, 0, false, [], 0, {}, false)
  }

  datatype Label =
    | Main               // the next step of the owning thread
    | Start              // the pool starts a worker
    | Work(i: nat)       // the next step of worker i's hook, or of its end
    | Hand               // the client takes a handle, or clones one
    | Return             // and drops one
    | DropCallback       // the pool's remains drop the start hook
    | SetDefaults        // the owning thread sets its guards, in `enter`, `block_on` or `shutdown_on_idle`
    | ResetDefaults      // and drops them, in the first two
    | Close(todo: seq<Resource>)  // the owner begins to let go of everything, in this order

  predicate PoolWorks(s: State) {
    s.pool == Building || s.pool == Serving
  }

  /** A read lock has to wait for the writer; nothing else in a worker's life waits. */
  predicate CanMove(flavour: Flavour, w: Worker, lock: Lock) {
    match w
    case Starting => flavour == ThreadPool || lock != Writing
    case Upgraded => lock != Writing
    case Stopped => false
    case Panicked => false
    case _ => true
  }

  predicate Ended(w: Worker) {
    w.Stopped? || w.Panicked?
  }

  /** What the owner has not let go of. */
  predicate Held(s: State, r: Resource) {
    match r
    case Guarding(g) => g in s.guards
    case Pool => s.pool == Serving
    case LocalTasks => s.locals
    case Background => s.background == Active || s.background == Signalled
    case CellRef => s.owns
  }

  /** Everything that is held, once. */
  ghost predicate Complete(s: State, todo: seq<Resource>) {
    Distinct(todo) && forall r :: r in todo <==> Held(s, r)
  }

  ghost predicate Enabled(s: State, l: Label) {
    match l
    case Main =>
      match s.stage {
        case Ready => false
        case Closing(todo) => todo != [] && (todo[0] == Pool ==> forall i :: 0 <= i < |s.workers| ==> Ended(s.workers[i]))
        case _ => true
      }
    case Start => PoolWorks(s)
    case Work(i) => i < |s.workers| && CanMove(s.flavour, s.workers[i], s.lock)
    case Hand => s.stage == Ready || s.executors > 0
    case Return => s.executors > 0
    case DropCallback => s.callback && s.pool == Dropped
    case SetDefaults => s.stage == Ready && s.guards == {}
    case ResetDefaults => s.stage == Ready && s.guards == ALL_GUARDS
    case Close(todo) => s.stage == Ready && Complete(s, todo)
  }

  /** A strong reference to the cell goes; the last one frees it, and the handle in it. */
  function Release(s: State): (s': State)
    ensures s'.flavour == s.flavour && s'.own == s.own
  {
    if s.strong != 1 then s.(strong := if s.strong == 0 then 0 else s.strong - 1)
    else s.(strong := 0, cell := Freed, handles := if s.cell.Alive? && s.cell.content.Holds? then Dec(s.handles) else s.handles)
  }

  function Dec(n: nat): nat { if n == 0 then 0 else n - 1 }

  function Unlock(s: State): State {
    s.(lock := match s.lock
               case Reading(n) => if n <= 1 then Free else Reading(n - 1)
               case other => other)
  }

  function ReadLock(s: State): State {
    s.(lock := match s.lock
               case Reading(n) => Reading(n + 1)
               case _ => Reading(1))
  }

  function MainNext(s: State): (s': State)
    ensures s'.flavour == s.flavour && s'.own == s.own
  {
    match s.stage
    case Begin => s.(stage := BackgroundUp, background := Active)
    case BackgroundUp =>
      // `Arc::new(RwLock::new(None))`, downgraded or cloned for the hook, then locked
      s.(stage := Locked, pool := Building, cell := Alive(Empty), lock := Writing,
         owns := true, strong := if s.flavour == ThreadPool then 1 else 2)
    case Locked => s.(stage := PoolUp, pool := Serving, handles := s.handles + 1, callback := true)
    case PoolUp => s.(stage := CellSet, cell := Alive(Holds(s.own)), handles := s.handles + 1)
    case CellSet =>
      // the current-thread builder's own reference ends with `build`, and `new2` makes the local set
      if s.flavour == ThreadPool then s.(stage := Ready, lock := Free)
      else Release(s.(stage := Ready, lock := Free, owns := false, locals := true))
    case Ready => s
    case Closing(todo) => if todo == [] then s else DropNext(s, todo[0], todo[1..])
  }

  /** `Drop for Background` signals the thread and then joins it; the rest goes in one step. */
  function DropNext(s: State, r: Resource, rest: seq<Resource>): (s': State)
    ensures s'.flavour == s.flavour && s'.own == s.own
  {
    match r
    case Guarding(g) =>
      s.(stage := Closing(rest), guards := s.guards - {g}, handles := if g == ExecutorGuard then Dec(s.handles) else s.handles)
    case Pool => s.(stage := Closing(rest), pool := Dropped, handles := Dec(s.handles))
    case LocalTasks => s.(stage := Closing(rest), locals := false)
    case Background =>
      if s.background == Active then s.(background := Signalled) else s.(stage := Closing(rest), background := Joined)
    case CellRef => Release(s).(stage := Closing(rest), owns := false)
  }

  function SetWorker(s: State, i: nat, w: Worker): State
    requires i < |s.workers|
  {
    s.(workers := s.workers[i := w])
  }

  function WorkNext(s: State, i: nat): (s': State)
    requires i < |s.workers|
    ensures s'.flavour == s.flavour && s'.own == s.own
  {
    match s.workers[i]
    case Starting =>
      if s.flavour == CurrentThread then SetWorker(ReadLock(s), i, Locking)
      else if s.strong == 0 then SetWorker(s, i, Panicked)  // "Runtime dropped but thread started"
      else SetWorker(s, i, Upgraded).(strong := s.strong + 1)
    case Upgraded => SetWorker(ReadLock(s), i, Locking)
    case Locking =>
      if s.cell.Alive? && s.cell.content.Holds?
      then SetWorker(s, i, Cloned(s.cell.content.spawner)).(handles := s.handles + 1)
      else SetWorker(s, i, Panicked)  // "compat executor needs to be set before the pool is run"
    case Cloned(spawner) =>
      var s' := SetWorker(Unlock(s), i, Installed(spawner));
      if s.flavour == ThreadPool then Release(s') else s'
    case Installed(_) => SetWorker(s, i, Stopped).(handles := Dec(s.handles))
    case Stopped => s
    case Panicked => s
  }

  function Next(s: State, l: Label): (s': State)
    requires Enabled(s, l)
    ensures s'.flavour == s.flavour && s'.own == s.own
  {
    match l
    case Main => MainNext(s)
    case Start => s.(workers := s.workers + [Starting])
    case Work(i) => WorkNext(s, i)
    case Hand => s.(handles := s.handles + 1, executors := s.executors + 1)
    case Return => s.(handles := Dec(s.handles), executors := s.executors - 1)
    case DropCallback =>
      var s' := s.(callback := false);
      if s.flavour == CurrentThread then Release(s') else s'
    case SetDefaults => s.(guards := ALL_GUARDS, handles := s.handles + 1)
    case ResetDefaults => s.(guards := {}, handles := Dec(s.handles))
    case Close(todo) => s.(stage := Closing(todo))
  }

  // ---------------------------------------------------------------- counting workers

  datatype Role = Referring | LockHolding | Guarded | InHook

  predicate Plays(r: Role, w: Worker) {
    match r
    case Referring => w.Upgraded? || w.Locking? || w.Cloned?
    case LockHolding => w.Locking? || w.Cloned?
    case Guarded => w.Cloned? || w.Installed?
    case InHook => w.Starting? || w.Upgraded? || w.Locking? || w.Cloned?
  }

  function Count(r: Role, ws: seq<Worker>, n: nat := |ws|): nat
    requires n <= |ws|
  {
    if n == 0 then 0 else Count(r, ws, n - 1) + if Plays(r, ws[n - 1]) then 1 else 0
  }

  // ---------------------------------------------------------------- invariant

  /** The hook's own strong reference: none in the thread pool. From `Locked` on it belongs to the builder. */
  predicate HookRefers(s: State) {
    s.flavour == CurrentThread && (s.stage == Locked || s.callback)
  }

  function Bit(b: bool): nat { if b then 1 else 0 }

  /** Who refers to the cell, who has a handle to the pool, who holds the lock: exactly. */
  ghost predicate Balanced(s: State) {
    ReferencesAddUp(s) && HandlesAddUp(s) && LockAddsUp(s)
  }

  ghost predicate ReferencesAddUp(s: State) {
    s.strong == Bit(s.owns) + Bit(HookRefers(s)) + (if s.flavour == ThreadPool then Count(Referring, s.workers) else 0)
  }

  ghost predicate HandlesAddUp(s: State) {
    s.handles == Bit(s.pool == Serving) + Bit(s.cell.Alive? && s.cell.content.Holds?) + Count(Guarded, s.workers)
                 + s.executors + Bit(ExecutorGuard in s.guards)
  }

  ghost predicate LockAddsUp(s: State) {
    && (s.lock.Reading? ==> s.lock.n == Count(LockHolding, s.workers) >= 1)
    && (s.lock == Free || s.lock == Writing ==> Count(LockHolding, s.workers) == 0)
  }

  /** How the cell and the pool go with the stages of building. */
  predicate CellFits(s: State) {
    && (s.pool == Unbuilt <==> s.stage in {Begin, BackgroundUp})
    && (s.pool == Building <==> s.stage == Locked)
    && (s.lock == Writing <==> s.stage in {Locked, PoolUp, CellSet})
    && (s.strong > 0 <==> s.cell.Alive?)
    && (s.cell.Unallocated? <==> s.stage in {Begin, BackgroundUp})
    && (s.cell.Alive? ==> (s.cell.content == Empty <==> s.stage in {Locked, PoolUp}))
    && (s.cell.Alive? && s.cell.content.Holds? ==> s.cell.content.spawner == s.own)
    && (s.callback ==> s.pool == Serving || s.pool == Dropped)
    && (s.pool == Serving ==> s.callback)
  }

  /** What the owning thread holds at each stage. */
  ghost predicate Staged(s: State) {
    match s.stage
    case Begin => s.background == NotStarted && s.pool == Unbuilt && !s.owns && s.guards == {} && !s.locals
    case BackgroundUp => s.background == Active && s.pool == Unbuilt && !s.owns && s.guards == {} && !s.locals
    case Locked => s.background == Active && s.pool == Building && s.owns && s.guards == {} && !s.locals
    case PoolUp => s.background == Active && s.pool == Serving && s.owns && s.guards == {} && !s.locals
    case CellSet => s.background == Active && s.pool == Serving && s.owns && s.guards == {} && !s.locals
    case Ready =>
      && s.background == Active && s.pool == Serving && (s.owns <==> s.flavour == ThreadPool)
      && (s.locals <==> s.flavour == CurrentThread) && (s.guards == {} || s.guards == ALL_GUARDS)
    case Closing(todo) => Pending(s, todo) && Ordered(todo)
  }

  /** While everything goes: the list is what is held, and only the first can be half gone. */
  ghost predicate Pending(s: State, todo: seq<Resource>) {
    && Complete(s, todo)
    && (s.pool == Serving || s.pool == Dropped) && s.background != NotStarted
    && (s.background == Signalled ==> todo != [] && todo[0] == Background)
  }

  /** Whatever needs the background thread has it; and the thread pool's workers have the cell. */
  predicate Served(s: State) {
    && (PoolWorks(s) || s.guards != {} || s.locals ==> s.background == Active)
    && (PoolWorks(s) && s.flavour == ThreadPool ==> s.owns)
  }

  /** No worker has panicked, workers live only while the pool does, and each installs the
      spawner of this very runtime. */
  ghost predicate Orderly(s: State) {
    forall i :: 0 <= i < |s.workers| ==> OrderlyWorker(s, s.workers[i])
  }

  predicate OrderlyWorker(s: State, w: Worker) {
    && !w.Panicked?
    && (!w.Stopped? ==> PoolWorks(s))
    && (w.Locking? ==> s.stage.Ready? || s.stage.Closing?)
    && (w.Cloned? || w.Installed? ==> w.spawner == s.own && (s.stage.Ready? || s.stage.Closing?))
  }

  ghost predicate Good(s: State) {
    Balanced(s) && CellFits(s) && Staged(s) && Served(s) && Orderly(s)
  }
}
