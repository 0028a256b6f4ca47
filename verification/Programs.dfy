/** Futures as finite program trees, the tasks that run them, and sums over task lists. */
module Programs {

  /** What a future still has to do. `Spawn` goes through a counting spawn (it reserves a
      track first); `SpawnHandle` goes through a spawn that returns a `JoinHandle` and
      counts nothing. `Panic` unwinds out of the future. */
  datatype Prog =
    | Return
    | Work(rest: Prog)
    | Spawn(child: Prog, rest: Prog)
    | SpawnHandle(child: Prog, rest: Prog)
    | Panic

  /** `Sending` lies between the `fetch_sub` that saw 1 and the send of its token.
      An abandoned task remembers what it never ran. */
  datatype Phase = Running(prog: Prog) | Sending | Done | Abandoned(lost: Prog)

  /** Names a counted task: the number of its root, then child numbers. */
  type Path = seq<nat>

  /** `reserved` and `released` are the positions, in the modification order of the shared
      counter, of the task's own `fetch_add` and `fetch_sub`. Position 0 is the initial
      value, so `released == 0` says that the task has not decremented. */
  datatype Task = Task(
    counted: bool,
    path: Path,
    body: Prog,
    phase: Phase,
    children: nat,
    reserved: nat,
    released: nat)

  /** The counted nodes of a program run by the task named `base` that has already
      spawned `k` counted children, reached through counted parents only. */
  function Nodes(p: Prog, base: Path, k: nat): set<Path> {
    match p
    case Return => {}
    case Work(rest) => Nodes(rest, base, k)
    case Spawn(child, rest) => {base + [k]} + Nodes(child, base + [k], 0) + Nodes(rest, base, k + 1)
    case SpawnHandle(_, rest) => Nodes(rest, base, k)
    case Panic => {}
  }

  /** No counted work is spawned anywhere in `p`. */
  predicate HandleOnly(p: Prog) {
    match p
    case Return => true
    case Work(rest) => HandleOnly(rest)
    case Spawn(_, _) => false
    case SpawnHandle(child, rest) => HandleOnly(child) && HandleOnly(rest)
    case Panic => true
  }

  /** Tasks spawned without counting never spawn counted ones. */
  predicate Separated(p: Prog) {
    match p
    case Return => true
    case Work(rest) => Separated(rest)
    case Spawn(child, rest) => Separated(child) && Separated(rest)
    case SpawnHandle(child, rest) => HandleOnly(child) && Separated(rest)
    case Panic => true
  }

  /** The future itself panics, whatever becomes of what it spawned. */
  predicate Panics(p: Prog) {
    match p
    case Return => false
    case Work(rest) => Panics(rest)
    case Spawn(_, rest) => Panics(rest)
    case SpawnHandle(_, rest) => Panics(rest)
    case Panic => true
  }

  /** Run by a counted task, neither the future nor any counted task below it through counted
      parents panics. */
  predicate CountedTotal(p: Prog) {
    match p
    case Return => true
    case Work(rest) => CountedTotal(rest)
    case Spawn(child, rest) => CountedTotal(child) && CountedTotal(rest)
    case SpawnHandle(_, rest) => CountedTotal(rest)
    case Panic => false
  }

  /** No counted task of the whole tree panics, below uncounted tasks included. */
  predicate TreeTotal(p: Prog, counted: bool) {
    match p
    case Return => true
    case Work(rest) => TreeTotal(rest, counted)
    case Spawn(child, rest) => TreeTotal(child, true) && TreeTotal(rest, counted)
    case SpawnHandle(child, rest) => TreeTotal(child, false) && TreeTotal(rest, counted)
    case Panic => !counted
  }

  lemma {:induction false} HandleOnlyIsTotal(p: Prog)
    requires HandleOnly(p)
    ensures TreeTotal(p, false)
  {
    match p
    case Work(rest) => HandleOnlyIsTotal(rest);
    case SpawnHandle(child, rest) =>
      HandleOnlyIsTotal(child);
      HandleOnlyIsTotal(rest);
    case _ =>
  }

  lemma {:induction false} TreeTotalIsCountedTotal(p: Prog)
    requires TreeTotal(p, true)
    ensures CountedTotal(p)
  {
    match p
    case Work(rest) => TreeTotalIsCountedTotal(rest);
    case Spawn(child, rest) =>
      TreeTotalIsCountedTotal(child);
      TreeTotalIsCountedTotal(rest);
    case SpawnHandle(_, rest) => TreeTotalIsCountedTotal(rest);
    case _ =>
  }

  /** Where uncounted tasks spawn nothing counted, the two notions agree. */
  lemma {:induction false} SeparatedTotal(p: Prog)
    requires Separated(p)
    ensures TreeTotal(p, true) <==> CountedTotal(p)
  {
    match p
    case Work(rest) => SeparatedTotal(rest);
    case Spawn(child, rest) =>
      SeparatedTotal(child);
      SeparatedTotal(rest);
    case SpawnHandle(child, rest) =>
      HandleOnlyIsTotal(child);
      SeparatedTotal(rest);
    case _ =>
  }

  lemma {:induction false} CountedTotalReturns(p: Prog)
    requires CountedTotal(p)
    ensures !Panics(p)
  {
    match p
    case Work(rest) => CountedTotalReturns(rest);
    case Spawn(_, rest) => CountedTotalReturns(rest);
    case SpawnHandle(_, rest) => CountedTotalReturns(rest);
    case _ =>
  }

  /** Steps that a program can still cause, its wake-up of the waiter included. */
  function Steps(p: Prog, counted: bool): nat {
    match p
    case Return => if counted then 4 else 1
    case Work(rest) => 1 + Steps(rest, counted)
    case Spawn(child, rest) => 1 + Steps(child, true) + Steps(rest, counted)
    case SpawnHandle(child, rest) => 1 + Steps(child, false) + Steps(rest, counted)
    case Panic => 1
  }

  /** What is summed over a task list. */
  datatype Weight =
    | Owing          // counted and not decremented
    | Lost           // counted and abandoned
    | Notifying      // about to send
    | Tracking       // its `Track` is not dropped
    | Released       // counted and decremented
    | Cost           // steps still to come
    | PendingAt(position: nat)  // reserved at or before `position`, not yet released there

  function Value(w: Weight, t: Task): nat {
    match w
    case Owing => if t.counted && (t.phase.Running? || t.phase.Abandoned?) then 1 else 0
    case Lost => if t.counted && t.phase.Abandoned? then 1 else 0
    case Notifying => if t.phase.Sending? then 1 else 0
    case Tracking => if t.counted && (t.phase.Running? || t.phase.Sending?) then 1 else 0
    case Released => if t.counted && (t.phase.Sending? || t.phase.Done?) then 1 else 0
    case Cost => (match t.phase case Running(p) => Steps(p, t.counted) case Sending => 3 case _ => 0)
    case PendingAt(p) => if t.counted && t.reserved <= p && (t.released == 0 || p < t.released) then 1 else 0
  }

  function Sum(w: Weight, ts: seq<Task>): nat {
    SumTo(w, ts, |ts|)
  }

  function SumTo(w: Weight, ts: seq<Task>, n: nat): nat
    requires n <= |ts|
  {
    if n == 0 then 0 else SumTo(w, ts, n - 1) + Value(w, ts[n - 1])
  }

  lemma {:induction false} SumPointwise(w: Weight, ts: seq<Task>, w': Weight, ts': seq<Task>, n: nat)
    requires n <= |ts| && n <= |ts'|
    requires forall i :: 0 <= i < n ==> Value(w, ts[i]) == Value(w', ts'[i])
    ensures SumTo(w, ts, n) == SumTo(w', ts', n)
  {
    if n > 0 {
      SumPointwise(w, ts, w', ts', n - 1);
    }
  }

  lemma SumAppend(w: Weight, ts: seq<Task>, t: Task)
    ensures Sum(w, ts + [t]) == Sum(w, ts) + Value(w, t)
  {
    SumPointwise(w, ts + [t], w, ts, |ts|);
  }

  lemma {:induction false} SumUpdate(w: Weight, ts: seq<Task>, i: nat, t: Task, n: nat := |ts|)
    requires i < n <= |ts|
    ensures SumTo(w, ts[i := t], n) + Value(w, ts[i]) == SumTo(w, ts, n) + Value(w, t)
  {
    if i == n - 1 {
      SumPointwise(w, ts[i := t], w, ts, i);
    } else {
      SumUpdate(w, ts, i, t, n - 1);
    }
  }

  /** A sum is zero exactly when every task weighs nothing. */
  lemma {:induction false} SumZero(w: Weight, ts: seq<Task>, n: nat := |ts|)
    requires n <= |ts|
    ensures SumTo(w, ts, n) == 0 <==> forall i :: 0 <= i < n ==> Value(w, ts[i]) == 0
  {
    if n > 0 {
      SumZero(w, ts, n - 1);
    }
  }
}
