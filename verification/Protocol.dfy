/** The idle protocol of idle.rs as a labelled transition system over arbitrarily many tasks.

    A label names one atomic step of one participant. The outcome of the waiter's load is
    part of the label and is left open here: the sequentially consistent model
    (Interleaving) and the weak-memory model (WeakMemory) each say which outcomes a load
    may have, and share everything that does not depend on it. */
module Protocol {
  import opened Programs

  datatype Waiter = Outside | Checking | Receiving

  /** `clock` counts the read-modify-writes of the counter so far. `crossings` and `consumed`
      count the 1-to-0 transitions and the tokens received; the code stores neither. */
  datatype State = State(
    counter: int,
    clock: nat,
    tasks: seq<Task>,
    roots: nat,
    queue: nat,
    waiter: Waiter,
    senders: nat,
    handles: nat,
    crossings: nat,
    consumed: nat)

  datatype Label =
    | Root(counted: bool, body: Prog)  // a spawn from outside any task
    | Act(i: nat)                      // the next action of task i
    | Send(i: nat)                     // the token of task i
    | Drop(i: nat)                     // the future of task i is dropped unfinished
    | Call                             // `Rx::idle` is called
    | Load(zero: bool)                 // its load, and whether it saw 0
    | Recv                             // its `recv`, with a token
    | Closed                           // its `recv`, all senders gone
    | Clone                            // an `Idle` is cloned
    | Forget                           // a clone is dropped

  /** `Idle::new`: the runtime keeps the one sender there is. */
  const FRESH := State(0, 0, [], 0, 0, Outside, 1, 1, 0, 0)

  predicate Enabled(s: State, l: Label) {
    match l
    case Root(_, _) => true
    case Act(i) => i < |s.tasks| && s.tasks[i].phase.Running?
    case Send(i) => i < |s.tasks| && s.tasks[i].phase.Sending?
    case Drop(i) => i < |s.tasks| && s.tasks[i].phase.Running?
    case Call => s.waiter == Outside
    case Load(_) => s.waiter == Checking
    case Recv => s.waiter == Receiving && s.queue > 0
    case Closed => s.waiter == Receiving && s.queue == 0 && s.senders == 0
    case Clone => true
    case Forget => s.handles > 1
  }

  /** `Idle::reserve`, then the new task is handed to the executor. */
  function Reserve(s: State, path: Path, body: Prog): State {
    s.(counter := s.counter + 1, clock := s.clock + 1, senders := s.senders + 1,
       tasks := s.tasks + [Task(true, path, body, Running(body), 0, s.clock + 1, 0)])
  }

  function Uncounted(body: Prog): Task {
    Task(false, [], body, Running(body), 0, 0, 0)
  }

  function SetTask(s: State, i: nat, t: Task): State
    requires i < |s.tasks|
  {
    s.(tasks := s.tasks[i := t])
  }

  /** The end of `Track::with`: `fetch_sub`, and a notification is due when it returned 1. */
  function Release(s: State, i: nat): State
    requires i < |s.tasks|
  {
    var t := s.tasks[i].(released := s.clock + 1);
    var s' := s.(counter := s.counter - 1, clock := s.clock + 1);
    if s.counter == 1
    then SetTask(s', i, t.(phase := Sending)).(crossings := s.crossings + 1)
    else SetTask(s', i, t.(phase := Done)).(senders := Dec(s.senders))
  }

  /** A task's future goes away unfinished; its `Track`, if it has one, is dropped with it. */
  function Abandon(s: State, i: nat): State
    requires i < |s.tasks| && s.tasks[i].phase.Running?
  {
    var t := s.tasks[i];
    SetTask(s, i, t.(phase := Abandoned(t.phase.prog))).(senders := if t.counted then Dec(s.senders) else s.senders)
  }

  function Dec(n: nat): nat { if n == 0 then 0 else n - 1 }

  function ActNext(s: State, i: nat): State
    requires i < |s.tasks| && s.tasks[i].phase.Running?
  {
    var t := s.tasks[i];
    match t.phase.prog
    case Return => if t.counted then Release(s, i) else SetTask(s, i, t.(phase := Done))
    case Work(rest) => SetTask(s, i, t.(phase := Running(rest)))
    case Spawn(child, rest) =>
      if t.counted
      then Reserve(SetTask(s, i, t.(phase := Running(rest), children := t.children + 1)), t.path + [t.children], child)
      else Reserve(SetTask(s, i, t.(phase := Running(rest))), [s.roots], child).(roots := s.roots + 1)
    case SpawnHandle(child, rest) =>
      var s' := SetTask(s, i, t.(phase := Running(rest)));
      s'.(tasks := s'.tasks + [Uncounted(child)])
    case Panic => Abandon(s, i)
  }

  function Next(s: State, l: Label): State
    requires Enabled(s, l)
  {
    match l
    case Root(counted, body) =>
      if counted
      then Reserve(s, [s.roots], body).(roots := s.roots + 1)
      else s.(tasks := s.tasks + [Uncounted(body)])
    case Act(i) => ActNext(s, i)
    case Send(i) => SetTask(s, i, s.tasks[i].(phase := Done)).(queue := s.queue + 1, senders := Dec(s.senders))
    case Drop(i) => Abandon(s, i)
    case Call => s.(waiter := Checking)
    case Load(zero) => s.(waiter := if zero then Outside else Receiving)
    case Recv => s.(waiter := Checking, queue := s.queue - 1, consumed := s.consumed + 1)
    case Closed => s.(waiter := Checking)
    case Clone => s.(senders := s.senders + 1, handles := s.handles + 1)
    case Forget => s.(senders := Dec(s.senders), handles := s.handles - 1)
  }

  // ---------------------------------------------------------------- accounting

  /** The counter is the live tracks and the abandoned ones; every crossing's token is
      queued, about to be sent, or consumed; every sender belongs to an `Idle` or a track. */
  ghost predicate Accounted(s: State) {
    && s.counter == Sum(Owing, s.tasks)
    && s.queue + Sum(Notifying, s.tasks) + s.consumed == s.crossings <= Sum(Released, s.tasks)
    && s.senders == s.handles + Sum(Tracking, s.tasks)
    && s.handles >= 1
  }

  ghost predicate WellStamped(t: Task, clock: nat) {
    if t.counted then
      && 1 <= t.reserved <= clock
      && (t.released == 0 <==> t.phase.Running? || t.phase.Abandoned?)
      && (t.released != 0 ==> t.reserved < t.released <= clock)
    else
      t.reserved == 0 && t.released == 0 && !t.phase.Sending?
  }

  ghost predicate Stamped(s: State) {
    forall i :: 0 <= i < |s.tasks| ==> WellStamped(s.tasks[i], s.clock)
  }

  // ---------------------------------------------------------------- ancestry

  /** `a` is the parent of `b` among counted tasks. */
  predicate IsParent(a: Task, b: Task) {
    a.counted && b.counted && |b.path| == |a.path| + 1 && a.path < b.path
  }

  /** Names are never used twice, and a name below a task uses a child number already given out. */
  ghost predicate Named(s: State) {
    && (forall i :: 0 <= i < |s.tasks| && s.tasks[i].counted ==> |s.tasks[i].path| >= 1 && s.tasks[i].path[0] < s.roots)
    && (forall i, j :: 0 <= i < |s.tasks| && 0 <= j < |s.tasks| && s.tasks[i].counted && s.tasks[j].counted ==>
          && (i != j ==> s.tasks[i].path != s.tasks[j].path)
          && (s.tasks[i].path < s.tasks[j].path ==> s.tasks[j].path[|s.tasks[i].path|] < s.tasks[i].children))
  }

  /** A child is reserved inside its parent's await: after the parent's reserve, before its release. */
  ghost predicate Nested(s: State) {
    && (forall i, j :: 0 <= i < |s.tasks| && 0 <= j < |s.tasks| && IsParent(s.tasks[i], s.tasks[j]) ==>
          && s.tasks[i].reserved < s.tasks[j].reserved
          && (s.tasks[i].released == 0 || s.tasks[j].reserved < s.tasks[i].released))
    && (forall j :: 0 <= j < |s.tasks| && s.tasks[j].counted && |s.tasks[j].path| > 1 ==> HasParent(s, j))
  }

  ghost predicate HasParent(s: State, j: nat)
    requires j < |s.tasks|
  {
    exists i :: 0 <= i < |s.tasks| && IsParent(s.tasks[i], s.tasks[j])
  }

  // ---------------------------------------------------------------- growth of spawn trees

  /** Counted nodes that a task has not spawned yet, or never will. */
  function Rest(t: Task): set<Path> {
    match t.phase
    case Running(p) => Nodes(p, t.path, t.children)
    case Abandoned(p) => Nodes(p, t.path, t.children)
    case _ => {}
  }

  /** What task `t` accounts for strictly below the task named `base`: itself, and what it has left. */
  function Part(t: Task, base: Path): set<Path> {
    if t.counted && base <= t.path
    then (if base == t.path then {} else {t.path}) + Rest(t)
    else {}
  }

  function Covered(ts: seq<Task>, base: Path): set<Path> {
    set i, q | 0 <= i < |ts| && q in Part(ts[i], base) :: q
  }

  /** Below every counted task, what has been spawned and what is still ahead make up its whole tree. */
  ghost predicate Grown(s: State) {
    forall i :: 0 <= i < |s.tasks| && s.tasks[i].counted ==>
      Covered(s.tasks, s.tasks[i].path) == Nodes(s.tasks[i].body, s.tasks[i].path, 0)
  }

  ghost predicate Good(s: State) {
    Accounted(s) && Stamped(s) && Named(s) && Nested(s) && Grown(s)
  }
}
