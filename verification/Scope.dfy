/** The thread-local tracker of the current-thread runtime: mutable state that is set, reset and
    checked by hand, proved to be lexical scoping, exits by unwinding included. */
module Scope {
  import opened Wrappers

  datatype Kind = BlockOn | Run | Enter

  /** The two executors of a current-thread runtime: its local set, and the inner runtime. */
  datatype Executor = Local | Inner

  /** Code of one thread. The body of an entry is what runs inside it: the future of `block_on`,
      or the closure of `enter`, and the polls of tasks meanwhile. */
  datatype Code =
    | Skip
    | Then(first: Code, second: Code)
    | Entry(kind: Kind, rt: nat, body: Code)
    | Deny(kind: Kind, rt: nat, late: bool)  // an entry that `enter()` admits and tokio refuses then, early or late
    | SpawnLocal     // `TaskExecutor::spawn_local_std`
    | Execute        // `future_01::Executor::execute` of a `TaskExecutor`
    | LocalHandle    // `TaskExecutor::spawn_handle_std`, which counts nothing
    | Spawn01        // a 0.1 spawn on the thread's default executor: an entry's `CompatSpawner`
    | SpawnOn(rt: nat, executor: Executor)  // `Runtime::spawn_std`; `Handle::spawn_std`, here or in another thread
    | Status         // `Executor::status` of a `TaskExecutor`
    | Look(rt: nat)  // the load in `idle`: what the counter is just then
    | Poll(executor: Executor, counted: bool, completes: bool, body: Code)  // of a task of the runtime that is being run
    | Fail           // a panic
    | Catch(body: Code)

  datatype Outcome = Normal | Unwound

  /** How a poll leaves its task. An executor catches what its tasks panic with. */
  datatype Fate = Pending | Completed | Crashed

  /** What happens, in order. The answers to a local spawn are `Accepted`, `Refused`,
      `GaveBack` (`execute` hands its future back) and `Spilled`: a panic after the reserve.
      Those to a 0.1 spawn are `Dispatched` and `NoExecutor`. */
  datatype Event =
    | Entered(kind: Kind, rt: nat)
    | Left(kind: Kind, rt: nat, outcome: Outcome)
    | Denied(kind: Kind, rt: nat, late: bool)
    | Accepted(rt: nat)
    | Spilled(rt: nat)
    | Refused
    | GaveBack
    | Dispatched(rt: nat)
    | NoExecutor
    | Handed(rt: nat, executor: Executor)
    | StatusWas(ok: bool)
    | Saw(rt: nat, counter: int)
    | Polled(rt: nat, executor: Executor)
    | Rested(rt: nat, executor: Executor, counted: bool, fate: Fate)

  /** Per runtime: the counter, the tracks of the tasks that its local set and its inner runtime
      have, and the tracks dropped without having counted down. */
  datatype Tally = Tally(counter: int, local: nat, inner: nat, lost: nat)

  /** Inside an entry, it may be a task's code that runs. */
  datatype Scope = Top | In(kind: Kind, rt: nat, task: Option<Executor>)

  datatype Result = Result(outcome: Outcome, tallies: seq<Tally>, events: seq<Event>)

  predicate Known(c: Code, n: nat) {
    match c
    case Then(first, second) => Known(first, n) && Known(second, n)
    case Entry(_, rt, body) => rt < n && Known(body, n)
    case Deny(_, rt, _) => rt < n
    case SpawnOn(rt, _) => rt < n
    case Look(rt) => rt < n
    case Poll(_, _, _, body) => Known(body, n)
    case Catch(body) => Known(body, n)
    case _ => true
  }

  predicate ScopeKnown(scope: Scope, n: nat) {
    scope.In? ==> scope.rt < n
  }

  /** A local set is the current one while it polls its own future and its own tasks. */
  predicate SetIsCurrent(scope: Scope) {
    scope.In? && scope.kind != Enter && scope.task != Some(Inner)
  }

  /** `block_on` and `run` poll tasks, one at a time. */
  predicate Polling(scope: Scope) {
    scope.In? && scope.kind != Enter && scope.task == None
  }

  // ---------------------------------------------------------------- the reference: lexical scoping

  function Reserved(ts: seq<Tally>, rt: nat): seq<Tally>
    requires rt < |ts|
  {
    ts[rt := ts[rt].(counter := ts[rt].counter + 1)]
  }

  function Live(t: Tally, e: Executor): nat {
    if e == Local then t.local else t.inner
  }

  function SetLive(t: Tally, e: Executor, n: nat): Tally {
    if e == Local then t.(local := n) else t.(inner := n)
  }

  /** A task is reserved and handed to an executor. */
  function Enqueued(ts: seq<Tally>, rt: nat, e: Executor): seq<Tally>
    requires rt < |ts|
  {
    ts[rt := SetLive(ts[rt].(counter := ts[rt].counter + 1), e, Live(ts[rt], e) + 1)]
  }

  function Leaked(ts: seq<Tally>, rt: nat): seq<Tally>
    requires rt < |ts|
  {
    ts[rt := ts[rt].(counter := ts[rt].counter + 1, lost := ts[rt].lost + 1)]
  }

  /** A local spawn: refused outside a runtime, accepted where the local set is current, and a
      panic that leaks its reserve where the tracker is set and the local set is not current. */
  function LocalSpawn(scope: Scope, refusal: Event, ts: seq<Tally>): Result
    requires ScopeKnown(scope, |ts|)
  {
    if scope.Top? then Result(Normal, ts, [refusal])
    else if SetIsCurrent(scope) then Result(Normal, Enqueued(ts, scope.rt, Local), [Accepted(scope.rt)])
    else Result(Unwound, Leaked(ts, scope.rt), [Spilled(scope.rt)])
  }

  /** A 0.1 spawn goes to the inner runtime of the entry, whichever its kind. */
  function DefaultSpawn(scope: Scope, ts: seq<Tally>): Result
    requires ScopeKnown(scope, |ts|)
  {
    if scope.Top? then Result(Normal, ts, [NoExecutor])
    else Result(Normal, Enqueued(ts, scope.rt, Inner), [Dispatched(scope.rt)])
  }

  /** The future of a `block_on` that completes gives its reserve back; one that unwinds leaks it. */
  function Settled(kind: Kind, rt: nat, r: Result): Result
    requires rt < |r.tallies|
  {
    var t := r.tallies[rt];
    var events := [Entered(kind, rt)] + r.events + [Left(kind, rt, r.outcome)];
    if kind != BlockOn then Result(r.outcome, r.tallies, events)
    else if r.outcome == Normal then Result(Normal, r.tallies[rt := t.(counter := t.counter - 1)], events)
    else Result(Unwound, r.tallies[rt := t.(lost := t.lost + 1)], events)
  }

  function FateOf(outcome: Outcome, completes: bool): Fate {
    if outcome == Unwound then Crashed else if completes then Completed else Pending
  }

  function Dec(n: nat): nat { if n == 0 then 0 else n - 1 }

  /** A counted task counts down when it completes, and not when it panics. */
  function Ended(t: Tally, e: Executor, counted: bool, fate: Fate): Tally {
    if !counted || fate == Pending then t
    else if fate == Completed then SetLive(t.(counter := t.counter - 1), e, Dec(Live(t, e)))
    else SetLive(t.(lost := t.lost + 1), e, Dec(Live(t, e)))
  }

  /** The poll of a task, whose code made `r` of it. */
  function Rest(rt: nat, e: Executor, counted: bool, completes: bool, r: Result): Result
    requires rt < |r.tallies|
  {
    var fate := FateOf(r.outcome, completes);
    Result(Normal, r.tallies[rt := Ended(r.tallies[rt], e, counted, fate)],
           [Polled(rt, e)] + r.events + [Rested(rt, e, counted, fate)])
  }

  /** Whether there is such a task to poll. */
  predicate CanPoll(scope: Scope, e: Executor, counted: bool, ts: seq<Tally>)
    requires ScopeKnown(scope, |ts|)
  {
    Polling(scope) && (counted ==> Live(ts[scope.rt], e) > 0)
  }

  function Eval(c: Code, scope: Scope, ts: seq<Tally>): (r: Result)
    requires Known(c, |ts|) && ScopeKnown(scope, |ts|)
    ensures |r.tallies| == |ts|
    decreases c
  {
    match c
    case Skip => Result(Normal, ts, [])
    case Then(first, second) =>
      var r := Eval(first, scope, ts);
      if r.outcome == Unwound then r else
        var r' := Eval(second, scope, r.tallies);
        r'.(events := r.events + r'.events)
    case Entry(kind, rt, body) =>
      if scope.In? then Result(Unwound, ts, []) else
        Settled(kind, rt, Eval(body, In(kind, rt, None), Admitted(kind, rt, ts)))
    case Deny(kind, rt, late) =>
      if scope.In? then Result(Unwound, ts, [])
      else Result(Unwound, if kind == BlockOn && late then Leaked(ts, rt) else ts, [Denied(kind, rt, late)])
    case SpawnLocal => LocalSpawn(scope, Refused, ts)
    case Execute => LocalSpawn(scope, GaveBack, ts)
    case LocalHandle => Result(if SetIsCurrent(scope) then Normal else Unwound, ts, [])
    case Spawn01 => DefaultSpawn(scope, ts)
    case SpawnOn(rt, e) => Result(Normal, Enqueued(ts, rt, e), [Handed(rt, e)])
    case Status => Result(Normal, ts, [StatusWas(scope.In?)])
    case Look(rt) => Result(Normal, ts, [Saw(rt, ts[rt].counter)])
    case Poll(e, counted, completes, body) =>
      if !CanPoll(scope, e, counted, ts) then Result(Normal, ts, []) else
        Rest(scope.rt, e, counted, completes, Eval(body, scope.(task := Some(e)), ts))
    case Fail => Result(Unwound, ts, [])
    case Catch(body) => Eval(body, scope, ts).(outcome := Normal)
  }

  /** The tallies that the body of an entry begins with: `block_on` reserves for its own future. */
  function Admitted(kind: Kind, rt: nat, ts: seq<Tally>): seq<Tally>
    requires rt < |ts|
  {
    if kind == BlockOn then Reserved(ts, rt) else ts
  }

  // ---------------------------------------------------------------- the thread

  class Thread {
    /** `tokio_executor::enter`'s flag. */
    var entered: bool
    /** `CURRENT_IDLE`. */
    var current: Option<nat>
    /** tokio 0.1's default executor: the `CompatSpawner` of a runtime. */
    var spawner: Option<nat>
    /** Whether tokio 0.2's local set of the runtime is the current one. */
    var local: bool
    /** Whether the runtime is being run, and which executor polls a task of it. */
    var running: bool
    var polled: Option<Executor>
    var tallies: seq<Tally>

    /** The thread-locals say what the lexical scope is. */
    ghost predicate At(scope: Scope)
      reads this
    {
      match scope
      case Top => !entered && current == None && spawner == None && !local && !running && polled == None
      case In(kind, rt, task) =>
        && entered && current == Some(rt) && spawner == Some(rt) && rt < |tallies|
        && local == SetIsCurrent(scope) && running == (kind != Enter) && polled == task
    }

    constructor (runtimes: nat)
      ensures At(Top) && |tallies| == runtimes
      ensures forall i :: 0 <= i < runtimes ==> tallies[i] == Tally(0, 0, 0, 0)
    {
      entered, current, spawner, local, running, polled := false, None, None, false, false, None;
      tallies := seq(runtimes, _ => Tally(0, 0, 0, 0));
    }

    /** `Idle::reserve` of a runtime's tracker. */
    method Reserve(rt: nat)
      requires rt < |tallies|
      modifies this`tallies
      ensures tallies == Reserved(old(tallies), rt)
    {
      tallies := tallies[rt := tallies[rt].(counter := tallies[rt].counter + 1)];
    }

    /** A reserved track goes to an executor with its task, ... */
    method Hand(rt: nat, e: Executor)
      requires rt < |tallies|
      modifies this`tallies
      ensures tallies == old(tallies)[rt := SetLive(old(tallies)[rt], e, Live(old(tallies)[rt], e) + 1)]
    {
      tallies := tallies[rt := SetLive(tallies[rt], e, Live(tallies[rt], e) + 1)];
    }

    /** ... or is dropped by an unwinding. */
    method Lose(rt: nat)
      requires rt < |tallies|
      modifies this`tallies
      ensures tallies == old(tallies)[rt := old(tallies)[rt].(lost := old(tallies)[rt].lost + 1)]
    {
      tallies := tallies[rt := tallies[rt].(lost := tallies[rt].lost + 1)];
    }

    /** The future of `block_on` is done with: it has counted down, or its track is dropped. */
    method Settle(rt: nat, o: Outcome)
      requires rt < |tallies|
      modifies this`tallies
      ensures tallies == old(tallies)[rt := if o == Normal then old(tallies)[rt].(counter := old(tallies)[rt].counter - 1)
                                            else old(tallies)[rt].(lost := old(tallies)[rt].lost + 1)]
    {
      if o == Unwound {
        Lose(rt);
      } else {
        tallies := tallies[rt := tallies[rt].(counter := tallies[rt].counter - 1)];
      }
    }

    /** `Runtime::reserve_idle`: a track of the thread's tracker, if there is one. */
    method ReserveIdle() returns (rt: Option<nat>)
      requires current.Some? ==> current.value < |tallies|
      modifies this`tallies
      ensures rt == current
      ensures tallies == if rt.Some? then Reserved(old(tallies), rt.value) else old(tallies)
    {
      rt := current;
      if rt.Some? {
        Reserve(rt.value);
      }
    }

    /** `Runtime::is_current`. */
    method IsCurrent(ghost scope: Scope) returns (b: bool)
      requires At(scope)
      ensures b <==> scope.In?
    {
      b := current.Some?;
    }

    /** `spawn_local_std` and `execute`: reserve, then hand the future to the local set. */
    method SpawnOnCurrent(refusal: Event, ghost scope: Scope) returns (o: Outcome, events: seq<Event>)
      requires At(scope)
      modifies this`tallies
      ensures At(scope) && Result(o, tallies, events) == LocalSpawn(scope, refusal, old(tallies))
    {
      var rt := ReserveIdle();
      if rt.None? {
        return Normal, [refusal];
      }
      if local {
        Hand(rt.value, Local);
        return Normal, [Accepted(rt.value)];
      } else {
        // `tokio::task::spawn_local` panics, and the track is dropped.
        Lose(rt.value);
        return Unwound, [Spilled(rt.value)];
      }
    }

    /** `CompatSpawner::spawn`, as the thread's default executor. */
    method SpawnOnDefault(ghost scope: Scope) returns (events: seq<Event>)
      requires At(scope)
      modifies this`tallies
      ensures At(scope) && Result(Normal, tallies, events) == DefaultSpawn(scope, old(tallies))
    {
      if spawner.None? {
        return [NoExecutor];
      }
      Reserve(spawner.value);
      Hand(spawner.value, Inner);
      return [Dispatched(spawner.value)];
    }

    /** One poll of a task, counted or not, by the executor that has it. The inner runtime polls
        its tasks with no local set current. */
    method PollTask(e: Executor, counted: bool, completes: bool, body: Code, ghost scope: Scope) returns (events: seq<Event>)
      requires At(scope) && Known(body, |tallies|)
      modifies this
      ensures At(scope) && Result(Normal, tallies, events) == Eval(Poll(e, counted, completes, body), scope, old(tallies))
      decreases body, 1
    {
      if !running || polled.Some? || (counted && Live(tallies[current.value], e) == 0) {
        return [];
      }
      var rt := current.value;
      polled, local := Some(e), e == Local;
      var o;
      o, events := Execute(body, scope.(task := Some(e)));
      polled, local := None, true;
      var fate := FateOf(o, completes);
      if counted {
        EndTask(rt, e, fate);
      }
      events := [Polled(rt, e)] + events + [Rested(rt, e, counted, fate)];
    }

    /** The end of `Track::with`, or the drop of a `Track` whose future has panicked. */
    method EndTask(rt: nat, e: Executor, fate: Fate)
      requires rt < |tallies|
      modifies this`tallies
      ensures tallies == old(tallies)[rt := Ended(old(tallies)[rt], e, true, fate)]
    {
      var t := tallies[rt];
      match fate
      case Pending =>
      case Completed => tallies := tallies[rt := SetLive(t.(counter := t.counter - 1), e, Dec(Live(t, e)))];
      case Crashed => tallies := tallies[rt := SetLive(t.(lost := t.lost + 1), e, Dec(Live(t, e)))];
    }

    /** `block_on_std`, `run` and `enter`: take the thread, reserve, set the defaults and the
        tracker, run, reset. */
    method EnterRuntime(kind: Kind, rt: nat, body: Code, ghost scope: Scope) returns (o: Outcome, events: seq<Event>)
      requires At(scope) && Known(Entry(kind, rt, body), |tallies|)
      modifies this
      ensures At(scope) && Result(o, tallies, events) == Eval(Entry(kind, rt, body), scope, old(tallies))
      decreases body, 1
    {
      // executor_01::enter().unwrap()
      if entered {
        return Unwound, [];
      }
      entered := true;
      if kind == BlockOn {
        Reserve(rt);
      }
      // executor_01::with_default, with_idle
      var wasEmpty := current == None;
      spawner, current := Some(rt), Some(rt);
      assert wasEmpty;  // so the check "entered current_thread runtime twice" never fails
      local, running := kind != Enter, kind != Enter;
      o, events := Execute(body, In(kind, rt, None));
      local, running := false, false;
      if kind == BlockOn {
        Settle(rt, o);
      }
      // the guards, also on unwinding
      current, spawner := None, None;
      entered := false;
      events := [Entered(kind, rt)] + events + [Left(kind, rt, o)];
    }

    /** The same where tokio refuses: early, when the thread has a default reactor or timer
        already; late, when it has a default executor or runs tokio 0.2 code already. Only then
        has `block_on` reserved. */
    method EnterInVain(kind: Kind, rt: nat, late: bool, ghost scope: Scope) returns (events: seq<Event>)
      requires At(scope) && rt < |tallies|
      modifies this
      ensures At(scope) && Result(Unwound, tallies, events) == Eval(Deny(kind, rt, late), scope, old(tallies))
    {
      if entered {
        return [];
      }
      entered := true;
      if kind == BlockOn && late {
        Reserve(rt);
        Lose(rt);
      }
      entered := false;
      return [Denied(kind, rt, late)];
    }

    /** Running any code on the thread does what lexical scoping says, and leaves the
        thread-locals as it found them, whether it returns or unwinds. */
    method Execute(c: Code, ghost scope: Scope) returns (o: Outcome, events: seq<Event>)
      requires At(scope) && Known(c, |tallies|)
      modifies this
      ensures At(scope) && Result(o, tallies, events) == Eval(c, scope, old(tallies))
      decreases c, 0
    {
      o, events := Normal, [];
      match c
      case Skip =>
      case Then(first, second) =>
        o, events := Execute(first, scope);
        if o == Normal {
          var more;
          o, more := Execute(second, scope);
          events := events + more;
        }
      case Entry(kind, rt, body) => o, events := EnterRuntime(kind, rt, body, scope);
      case Deny(kind, rt, late) =>
        events := EnterInVain(kind, rt, late, scope);
        o := Unwound;
      case SpawnLocal => o, events := SpawnOnCurrent(Refused, scope);
      case Execute => o, events := SpawnOnCurrent(GaveBack, scope);
      case LocalHandle =>
        // `tokio::task::spawn_local` panics without a local set.
        o := if local then Normal else Unwound;
      case Spawn01 => events := SpawnOnDefault(scope);
      case SpawnOn(rt, e) =>
        Reserve(rt);
        Hand(rt, e);
        events := [Handed(rt, e)];
      case Status =>
        var b := IsCurrent(scope);
        events := [StatusWas(b)];
      case Look(rt) => events := [Saw(rt, tallies[rt].counter)];
      case Poll(e, counted, completes, body) => events := PollTask(e, counted, completes, body, scope);
      case Fail => o := Unwound;
      case Catch(body) =>
        o, events := Execute(body, scope);
        o := Normal;
    }
  }

  // ---------------------------------------------------------------- conservation

  function Times(e: Event, events: seq<Event>): nat {
    if events == [] then 0 else
      Times(e, events[..|events| - 1]) + if events[|events| - 1] == e then 1 else 0
  }

  lemma {:induction false} TimesConcat(e: Event, a: seq<Event>, b: seq<Event>)
    ensures Times(e, a + b) == Times(e, a) + Times(e, b)
    decreases |b|
  {
    if b == [] {
      assert a + b == a;
    } else {
      assert (a + b)[..|a + b| - 1] == a + b[..|b| - 1];
      TimesConcat(e, a, b[..|b| - 1]);
    }
  }

  lemma TimesOne(e: Event, x: Event)
    ensures Times(e, [x]) == if x == e then 1 else 0
  {
    assert [x][..0] == [];
  }

  /** The tasks that an executor of runtime `i` was given, counted ones, and those that ended. */
  function Given(events: seq<Event>, i: nat, e: Executor): nat {
    Times(if e == Local then Accepted(i) else Dispatched(i), events) + Times(Handed(i, e), events)
  }

  function Finished(events: seq<Event>, i: nat, e: Executor, fate: Fate): nat {
    Times(Rested(i, e, true, fate), events)
  }

  /** How the events of a log move the tally of runtime `i`. Every task given to an executor is
      still live, or completed, or crashed. A track is lost by a crash, by a local spawn where no
      local set is current, by a `block_on` that unwinds or is refused after its reserve. The
      counter moves with all of them. */
  predicate Moved(t: Tally, t': Tally, events: seq<Event>, i: nat) {
    && LiveMoved(t, t', events, i, Local)
    && LiveMoved(t, t', events, i, Inner)
    && LostMoved(t, t', events, i)
    && t'.counter - t.counter == (t'.local - t.local) + (t'.inner - t.inner) + (t'.lost - t.lost)
  }

  predicate LiveMoved(t: Tally, t': Tally, events: seq<Event>, i: nat, e: Executor) {
    Given(events, i, e) == Live(t', e) - Live(t, e) + Finished(events, i, e, Completed) + Finished(events, i, e, Crashed)
  }

  predicate LostMoved(t: Tally, t': Tally, events: seq<Event>, i: nat) {
    t'.lost - t.lost ==
      Finished(events, i, Local, Crashed) + Finished(events, i, Inner, Crashed) + Times(Spilled(i), events)
      + Times(Left(BlockOn, i, Unwound), events) + Times(Denied(BlockOn, i, true), events)
  }

  lemma LiveConcat(t: Tally, t': Tally, t'': Tally, a: seq<Event>, b: seq<Event>, i: nat, e: Executor)
    requires LiveMoved(t, t', a, i, e) && LiveMoved(t', t'', b, i, e)
    ensures LiveMoved(t, t'', a + b, i, e)
  {
    TimesConcat(if e == Local then Accepted(i) else Dispatched(i), a, b);
    TimesConcat(Handed(i, e), a, b);
    TimesConcat(Rested(i, e, true, Completed), a, b);
    TimesConcat(Rested(i, e, true, Crashed), a, b);
  }

  lemma MovedConcat(t: Tally, t': Tally, t'': Tally, a: seq<Event>, b: seq<Event>, i: nat)
    requires Moved(t, t', a, i) && Moved(t', t'', b, i)
    ensures Moved(t, t'', a + b, i)
  {
    LiveConcat(t, t', t'', a, b, i, Local);
    LiveConcat(t, t', t'', a, b, i, Inner);
    TimesConcat(Rested(i, Local, true, Crashed), a, b);
    TimesConcat(Rested(i, Inner, true, Crashed), a, b);
    TimesConcat(Spilled(i), a, b);
    TimesConcat(Left(BlockOn, i, Unwound), a, b);
    TimesConcat(Denied(BlockOn, i, true), a, b);
  }

  /** How many tasks an event gives to an executor, or takes from it; and whether it loses a track. */
  function Delta(x: Event, i: nat, e: Executor): int {
    match x
    case Accepted(rt) => if rt == i && e == Local then 1 else 0
    case Dispatched(rt) => if rt == i && e == Inner then 1 else 0
    case Handed(rt, e') => if rt == i && e == e' then 1 else 0
    case Rested(rt, e', counted, fate) => if rt == i && e == e' && counted && fate != Pending then -1 else 0
    case _ => 0
  }

  function Loss(x: Event, i: nat): nat {
    match x
    case Rested(rt, _, counted, fate) => if rt == i && counted && fate == Crashed then 1 else 0
    case Spilled(rt) => if rt == i then 1 else 0
    case Left(kind, rt, outcome) => if rt == i && kind == BlockOn && outcome == Unwound then 1 else 0
    case Denied(kind, rt, late) => if rt == i && kind == BlockOn && late then 1 else 0
    case _ => 0
  }

  lemma LiveOne(t: Tally, t': Tally, x: Event, i: nat, e: Executor)
    requires Live(t', e) - Live(t, e) == Delta(x, i, e)
    ensures LiveMoved(t, t', [x], i, e)
  {
    TimesOne(if e == Local then Accepted(i) else Dispatched(i), x);
    TimesOne(Handed(i, e), x);
    TimesOne(Rested(i, e, true, Completed), x);
    TimesOne(Rested(i, e, true, Crashed), x);
  }

  /** One event alone. An entry comes with its reserve, an exit with its settlement. */
  lemma MovedOne(t: Tally, t': Tally, x: Event, i: nat)
    requires t'.local - t.local == Delta(x, i, Local) && t'.inner - t.inner == Delta(x, i, Inner)
    requires t'.lost - t.lost == Loss(x, i)
    requires t'.counter - t.counter == (t'.local - t.local) + (t'.inner - t.inner) + (t'.lost - t.lost)
    ensures Moved(t, t', [x], i)
  {
    LiveOne(t, t', x, i, Local);
    LiveOne(t, t', x, i, Inner);
    TimesOne(Rested(i, Local, true, Crashed), x);
    TimesOne(Rested(i, Inner, true, Crashed), x);
    TimesOne(Spilled(i), x);
    TimesOne(Left(BlockOn, i, Unwound), x);
    TimesOne(Denied(BlockOn, i, true), x);
  }

  /** One event, what happens under it, and one that ends it. */
  lemma MovedAround(t: Tally, t1: Tally, t2: Tally, enter: Event, events: seq<Event>, leave: Event, i: nat)
    requires Moved(t, t, [enter], i) && Moved(t, t1, events, i) && Moved(t1, t2, [leave], i)
    ensures Moved(t, t2, [enter] + events + [leave], i)
  {
    MovedConcat(t, t, t1, [enter], events, i);
    MovedConcat(t, t1, t2, [enter] + events, [leave], i);
  }

  /** A counter that starts higher ends higher. */
  lemma MovedShift(t: Tally, t': Tally, events: seq<Event>, k: int, i: nat)
    requires Moved(t.(counter := t.counter + k), t', events, i)
    ensures Moved(t, t'.(counter := t'.counter - k), events, i)
  {
  }

  lemma LeaveMoves(kind: Kind, rt: nat, r: Result, k: int, i: nat)
    requires rt < |r.tallies| && i < |r.tallies| && k == (if kind == BlockOn && rt == i then 1 else 0)
    ensures Moved(r.tallies[i].(counter := r.tallies[i].counter - k), Settled(kind, rt, r).tallies[i],
                  [Left(kind, rt, r.outcome)], i)
  {
    MovedOne(r.tallies[i].(counter := r.tallies[i].counter - k), Settled(kind, rt, r).tallies[i],
             Left(kind, rt, r.outcome), i);
  }

  lemma EntryMoves(kind: Kind, rt: nat, ts: seq<Tally>, r: Result, i: nat)
    requires rt < |ts| == |r.tallies| && i < |ts|
    requires Moved(Admitted(kind, rt, ts)[i], r.tallies[i], r.events, i)
    ensures Moved(ts[i], Settled(kind, rt, r).tallies[i], Settled(kind, rt, r).events, i)
  {
    var k := if kind == BlockOn && rt == i then 1 else 0;
    var t := r.tallies[i].(counter := r.tallies[i].counter - k);
    MovedShift(ts[i], r.tallies[i], r.events, k, i);
    MovedOne(ts[i], ts[i], Entered(kind, rt), i);
    LeaveMoves(kind, rt, r, k, i);
    MovedAround(ts[i], t, Settled(kind, rt, r).tallies[i], Entered(kind, rt), r.events, Left(kind, rt, r.outcome), i);
  }

  lemma RestMoves(t: Tally, rt: nat, e: Executor, counted: bool, fate: Fate)
    requires counted ==> Live(t, e) > 0
    ensures Moved(t, Ended(t, e, counted, fate), [Rested(rt, e, counted, fate)], rt)
  {
    MovedOne(t, Ended(t, e, counted, fate), Rested(rt, e, counted, fate), rt);
  }

  lemma PollMoves(rt: nat, e: Executor, counted: bool, completes: bool, ts: seq<Tally>, r: Result, i: nat)
    requires rt < |ts| == |r.tallies| && i < |ts| && Moved(ts[i], r.tallies[i], r.events, i)
    requires counted ==> Live(r.tallies[rt], e) > 0
    ensures var r' := Rest(rt, e, counted, completes, r); Moved(ts[i], r'.tallies[i], r'.events, i)
  {
    var fate := FateOf(r.outcome, completes);
    var t := Rest(rt, e, counted, completes, r).tallies[i];
    MovedOne(ts[i], ts[i], Polled(rt, e), i);
    if i == rt {
      RestMoves(r.tallies[i], rt, e, counted, fate);
    } else {
      MovedOne(t, t, Rested(rt, e, counted, fate), i);
    }
    MovedAround(ts[i], r.tallies[i], t, Polled(rt, e), r.events, Rested(rt, e, counted, fate), i);
  }

  /** Code without code inside. */
  predicate IsStep(c: Code) {
    !c.Then? && !c.Entry? && !c.Poll? && !c.Catch?
  }

  lemma StepMoves(c: Code, scope: Scope, ts: seq<Tally>, i: nat)
    requires Known(c, |ts|) && ScopeKnown(scope, |ts|) && i < |ts| && IsStep(c)
    ensures Moved(ts[i], Eval(c, scope, ts).tallies[i], Eval(c, scope, ts).events, i)
  {
    var r := Eval(c, scope, ts);
    if r.events != [] {
      MovedOne(ts[i], r.tallies[i], r.events[0], i);
    }
  }

  /** Tasks are polled one at a time: while one is, no other ends. */
  lemma {:induction false} NoneEnds(c: Code, scope: Scope, ts: seq<Tally>, i: nat, e: Executor)
    requires Known(c, |ts|) && ScopeKnown(scope, |ts|) && i < |ts| && scope.In? && !Polling(scope)
    ensures Live(Eval(c, scope, ts).tallies[i], e) >= Live(ts[i], e)
    decreases c
  {
    match c
    case Then(first, second) =>
      NoneEnds(first, scope, ts, i, e);
      NoneEnds(second, scope, Eval(first, scope, ts).tallies, i, e);
    case Catch(body) => NoneEnds(body, scope, ts, i, e);
    case _ =>
  }

  /** Nothing is counted without a reason and nothing forgotten: however the code nests, returns
      or unwinds, its log accounts for every change of every runtime's tally. */
  lemma {:induction false} CountsAddUp(c: Code, scope: Scope, ts: seq<Tally>, i: nat)
    requires Known(c, |ts|) && ScopeKnown(scope, |ts|) && i < |ts|
    ensures Moved(ts[i], Eval(c, scope, ts).tallies[i], Eval(c, scope, ts).events, i)
    decreases c
  {
    match c
    case Then(first, second) =>
      var r := Eval(first, scope, ts);
      CountsAddUp(first, scope, ts, i);
      if r.outcome == Normal {
        var r' := Eval(second, scope, r.tallies);
        CountsAddUp(second, scope, r.tallies, i);
        MovedConcat(ts[i], r.tallies[i], r'.tallies[i], r.events, r'.events, i);
      }
    case Entry(kind, rt, body) =>
      if scope.Top? {
        CountsAddUp(body, In(kind, rt, None), Admitted(kind, rt, ts), i);
        EntryMoves(kind, rt, ts, Eval(body, In(kind, rt, None), Admitted(kind, rt, ts)), i);
      }
    case Poll(e, counted, completes, body) =>
      if CanPoll(scope, e, counted, ts) {
        var r := Eval(body, scope.(task := Some(e)), ts);
        CountsAddUp(body, scope.(task := Some(e)), ts, i);
        NoneEnds(body, scope.(task := Some(e)), ts, scope.rt, e);
        PollMoves(scope.rt, e, counted, completes, ts, r, i);
      }
    case Catch(body) => CountsAddUp(body, scope, ts, i);
    case _ => StepMoves(c, scope, ts, i);
  }

  // ---------------------------------------------------------------- the counter at every moment

  /** What an event does to the counter of runtime `i`. A `block_on` counts itself from its entry
      on, until its future is done with; `run` and `enter` do not. */
  function Counts(x: Event, i: nat): int {
    match x
    case Accepted(rt) => if rt == i then 1 else 0
    case Dispatched(rt) => if rt == i then 1 else 0
    case Handed(rt, _) => if rt == i then 1 else 0
    case Spilled(rt) => if rt == i then 1 else 0
    case Denied(kind, rt, late) => if rt == i && kind == BlockOn && late then 1 else 0
    case Entered(kind, rt) => if rt == i && kind == BlockOn then 1 else 0
    case Left(kind, rt, outcome) => if rt == i && kind == BlockOn && outcome == Normal then -1 else 0
    case Rested(rt, _, counted, fate) => if rt == i && counted && fate == Completed then -1 else 0
    case _ => 0
  }

  /** The counter that a log leads to. */
  function CounterAfter(counter: int, events: seq<Event>, i: nat): int
    decreases |events|
  {
    if events == [] then counter else CounterAfter(counter + Counts(events[0], i), events[1..], i)
  }

  /** Every look at the counter shows what the log before it leads to. */
  predicate LooksAreExact(counter: int, events: seq<Event>, i: nat)
    decreases |events|
  {
    events == [] ||
    ((events[0].Saw? && events[0].rt == i ==> events[0].counter == counter)
     && LooksAreExact(counter + Counts(events[0], i), events[1..], i))
  }

  lemma {:induction false} LooksConcat(counter: int, a: seq<Event>, b: seq<Event>, i: nat)
    requires LooksAreExact(counter, a, i) && LooksAreExact(CounterAfter(counter, a, i), b, i)
    ensures LooksAreExact(counter, a + b, i)
    ensures CounterAfter(counter, a + b, i) == CounterAfter(CounterAfter(counter, a, i), b, i)
    decreases |a|
  {
    if a == [] {
      assert a + b == b;
    } else {
      assert (a + b)[1..] == a[1..] + b;
      LooksConcat(counter + Counts(a[0], i), a[1..], b, i);
    }
  }

  lemma LookOne(counter: int, x: Event, i: nat)
    requires x.Saw? && x.rt == i ==> x.counter == counter
    ensures LooksAreExact(counter, [x], i) && CounterAfter(counter, [x], i) == counter + Counts(x, i)
  {
    assert [x][1..] == [];
  }

  lemma LooksAround(counter: int, enter: Event, events: seq<Event>, leave: Event, i: nat)
    requires !enter.Saw? && !leave.Saw? && LooksAreExact(counter + Counts(enter, i), events, i)
    ensures LooksAreExact(counter, [enter] + events + [leave], i)
    ensures CounterAfter(counter, [enter] + events + [leave], i) ==
              CounterAfter(counter + Counts(enter, i), events, i) + Counts(leave, i)
  {
    LookOne(counter, enter, i);
    LooksConcat(counter, [enter], events, i);
    LookOne(CounterAfter(counter, [enter] + events, i), leave, i);
    LooksConcat(counter, [enter] + events, [leave], i);
  }

  predicate IsExact(t: Tally, t': Tally, events: seq<Event>, i: nat) {
    LooksAreExact(t.counter, events, i) && t'.counter == CounterAfter(t.counter, events, i)
  }

  lemma EntryIsExact(kind: Kind, rt: nat, ts: seq<Tally>, r: Result, i: nat)
    requires rt < |ts| == |r.tallies| && i < |ts|
    requires IsExact(Admitted(kind, rt, ts)[i], r.tallies[i], r.events, i)
    ensures IsExact(ts[i], Settled(kind, rt, r).tallies[i], Settled(kind, rt, r).events, i)
  {
    LooksAround(ts[i].counter, Entered(kind, rt), r.events, Left(kind, rt, r.outcome), i);
  }

  lemma PollIsExact(rt: nat, e: Executor, counted: bool, completes: bool, ts: seq<Tally>, r: Result, i: nat)
    requires rt < |ts| == |r.tallies| && i < |ts| && IsExact(ts[i], r.tallies[i], r.events, i)
    ensures var r' := Rest(rt, e, counted, completes, r); IsExact(ts[i], r'.tallies[i], r'.events, i)
  {
    LooksAround(ts[i].counter, Polled(rt, e), r.events, Rested(rt, e, counted, FateOf(r.outcome, completes)), i);
  }

  /** At every moment of any execution, not only at its end, each counter is what the log says:
      what a look shows, in the middle of whatever entry, poll or unwinding, is the number it
      began with and what was counted and counted down since. */
  lemma {:induction false} CounterIsExact(c: Code, scope: Scope, ts: seq<Tally>, i: nat)
    requires Known(c, |ts|) && ScopeKnown(scope, |ts|) && i < |ts|
    ensures IsExact(ts[i], Eval(c, scope, ts).tallies[i], Eval(c, scope, ts).events, i)
    decreases c
  {
    match c
    case Then(first, second) =>
      var r := Eval(first, scope, ts);
      CounterIsExact(first, scope, ts, i);
      if r.outcome == Normal {
        CounterIsExact(second, scope, r.tallies, i);
        LooksConcat(ts[i].counter, r.events, Eval(second, scope, r.tallies).events, i);
      }
    case Entry(kind, rt, body) =>
      if scope.Top? {
        var r := Eval(body, In(kind, rt, None), Admitted(kind, rt, ts));
        CounterIsExact(body, In(kind, rt, None), Admitted(kind, rt, ts), i);
        EntryIsExact(kind, rt, ts, r, i);
      }
    case Poll(e, counted, completes, body) =>
      if CanPoll(scope, e, counted, ts) {
        var r := Eval(body, scope.(task := Some(e)), ts);
        CounterIsExact(body, scope.(task := Some(e)), ts, i);
        PollIsExact(scope.rt, e, counted, completes, ts, r, i);
      }
    case Catch(body) => CounterIsExact(body, scope, ts, i);
    case _ => StepIsExact(c, scope, ts, i);
  }

  lemma StepIsExact(c: Code, scope: Scope, ts: seq<Tally>, i: nat)
    requires Known(c, |ts|) && ScopeKnown(scope, |ts|) && i < |ts| && IsStep(c)
    ensures IsExact(ts[i], Eval(c, scope, ts).tallies[i], Eval(c, scope, ts).events, i)
  {
    var events := Eval(c, scope, ts).events;
    if events != [] {
      LookOne(ts[i].counter, events[0], i);
      assert events == [events[0]];
    }
  }

  /** The code names runtime `i` as one to spawn on. */
  predicate Names(c: Code, i: nat) {
    match c
    case Then(first, second) => Names(first, i) || Names(second, i)
    case SpawnOn(rt, _) => rt == i
    case Poll(_, _, _, body) => Names(body, i)
    case Catch(body) => Names(body, i)
    case _ => false
  }

  /** Inside an entry only the entered runtime is counted on, but for spawns that name another:
      nested entries, of the same runtime or another, are rejected before they reserve anything. */
  lemma {:induction false} OnlyTheEntered(c: Code, scope: Scope, ts: seq<Tally>, i: nat)
    requires Known(c, |ts|) && ScopeKnown(scope, |ts|) && scope.In? && i < |ts|
    ensures i != scope.rt && !Names(c, i) ==> Eval(c, scope, ts).tallies[i] == ts[i]
    ensures c.Entry? || c.Deny? ==> Eval(c, scope, ts) == Result(Unwound, ts, [])
    decreases c
  {
    match c
    case Then(first, second) =>
      OnlyTheEntered(first, scope, ts, i);
      OnlyTheEntered(second, scope, Eval(first, scope, ts).tallies, i);
    case Poll(e, _, _, body) => OnlyTheEntered(body, scope.(task := Some(e)), ts, i);
    case Catch(body) => OnlyTheEntered(body, scope, ts, i);
    case _ =>
  }

  // ---------------------------------------------------------------- answers and scopes

  /** What can happen in a scope. */
  predicate Answers(scope: Scope, x: Event) {
    match x
    case Entered(_, _) => scope.Top?
    case Left(kind, rt, _) => scope == In(kind, rt, None)
    case Denied(_, _, _) => scope.Top?
    case Accepted(rt) => SetIsCurrent(scope) && scope.rt == rt
    case Spilled(rt) => scope.In? && scope.rt == rt && (scope.kind == Enter || scope.task == Some(Inner))
    case Refused => scope.Top?
    case GaveBack => scope.Top?
    case Dispatched(rt) => scope.In? && scope.rt == rt
    case NoExecutor => scope.Top?
    case Handed(_, _) => true
    case StatusWas(ok) => ok == scope.In?
    case Saw(_, _) => true
    case Polled(rt, _) => Polling(scope) && scope.rt == rt
    case Rested(rt, e, _, _) => scope.In? && scope.kind != Enter && scope.rt == rt && scope.task == Some(e)
  }

  function AfterEvent(scope: Scope, x: Event): Scope {
    match x
    case Entered(kind, rt) => In(kind, rt, None)
    case Left(_, _, _) => Top
    case Polled(_, e) => if scope.In? then scope.(task := Some(e)) else scope
    case Rested(_, _, _, _) => if scope.In? then scope.(task := None) else scope
    case _ => scope
  }

  /** The scope that the entries, exits and polls of a log lead to. */
  function Replay(scope: Scope, events: seq<Event>): Scope
    decreases |events|
  {
    if events == [] then scope else Replay(AfterEvent(scope, events[0]), events[1..])
  }

  /** Every event fits the scope that the ones before it lead to. */
  predicate Lexical(scope: Scope, events: seq<Event>)
    decreases |events|
  {
    events == [] || (Answers(scope, events[0]) && Lexical(AfterEvent(scope, events[0]), events[1..]))
  }

  lemma {:induction false} LexicalConcat(scope: Scope, a: seq<Event>, b: seq<Event>)
    requires Lexical(scope, a) && Lexical(Replay(scope, a), b)
    ensures Lexical(scope, a + b) && Replay(scope, a + b) == Replay(Replay(scope, a), b)
    decreases |a|
  {
    if a == [] {
      assert a + b == b;
    } else {
      assert (a + b)[1..] == a[1..] + b;
      LexicalConcat(AfterEvent(scope, a[0]), a[1..], b);
    }
  }

  lemma LexicalOne(scope: Scope, e: Event)
    requires Answers(scope, e)
    ensures Lexical(scope, [e]) && Replay(scope, [e]) == AfterEvent(scope, e)
  {
    assert [e][1..] == [];
  }

  /** One event, what happens under it, and one that ends it. */
  lemma LexicalAround(scope: Scope, enter: Event, events: seq<Event>, leave: Event)
    requires Answers(scope, enter)
    requires Lexical(AfterEvent(scope, enter), events) && Replay(AfterEvent(scope, enter), events) == AfterEvent(scope, enter)
    requires Answers(AfterEvent(scope, enter), leave) && AfterEvent(AfterEvent(scope, enter), leave) == scope
    ensures Lexical(scope, [enter] + events + [leave]) && Replay(scope, [enter] + events + [leave]) == scope
  {
    LexicalOne(scope, enter);
    LexicalConcat(scope, [enter], events);
    LexicalOne(AfterEvent(scope, enter), leave);
    LexicalConcat(scope, [enter] + events, [leave]);
  }

  /** The whole log of any code is that of lexical scoping, and ends in the scope it began in. */
  lemma {:induction false} LogIsLexical(c: Code, scope: Scope, ts: seq<Tally>)
    requires Known(c, |ts|) && ScopeKnown(scope, |ts|)
    ensures Lexical(scope, Eval(c, scope, ts).events) && Replay(scope, Eval(c, scope, ts).events) == scope
    decreases c
  {
    match c
    case Then(first, second) =>
      var r := Eval(first, scope, ts);
      LogIsLexical(first, scope, ts);
      if r.outcome == Normal {
        LogIsLexical(second, scope, r.tallies);
        LexicalConcat(scope, r.events, Eval(second, scope, r.tallies).events);
      }
    case Entry(kind, rt, body) =>
      if scope.Top? {
        var r := Eval(body, In(kind, rt, None), Admitted(kind, rt, ts));
        LogIsLexical(body, In(kind, rt, None), Admitted(kind, rt, ts));
        LexicalAround(Top, Entered(kind, rt), r.events, Left(kind, rt, r.outcome));
      }
    case Deny(kind, rt, late) =>
      if scope.Top? {
        LexicalOne(scope, Denied(kind, rt, late));
      }
    case SpawnLocal => LexicalOne(scope, LocalSpawn(scope, Refused, ts).events[0]);
    case Execute => LexicalOne(scope, LocalSpawn(scope, GaveBack, ts).events[0]);
    case Spawn01 => LexicalOne(scope, DefaultSpawn(scope, ts).events[0]);
    case SpawnOn(rt, e) => LexicalOne(scope, Handed(rt, e));
    case Status => LexicalOne(scope, StatusWas(scope.In?));
    case Look(rt) => LexicalOne(scope, Saw(rt, ts[rt].counter));
    case Poll(e, counted, completes, body) =>
      if CanPoll(scope, e, counted, ts) {
        var r := Eval(body, scope.(task := Some(e)), ts);
        LogIsLexical(body, scope.(task := Some(e)), ts);
        LexicalAround(scope, Polled(scope.rt, e), r.events, Rested(scope.rt, e, counted, FateOf(r.outcome, completes)));
      }
    case Catch(body) => LogIsLexical(body, scope, ts);
    case _ =>
  }

  lemma {:induction false} LexicalAt(scope: Scope, events: seq<Event>, k: nat)
    requires Lexical(scope, events) && k < |events|
    ensures Answers(Replay(scope, events[..k]), events[k])
    ensures Replay(scope, events[..k + 1]) == AfterEvent(Replay(scope, events[..k]), events[k])
    decreases k
  {
    if k == 0 {
      assert events[..1] == [events[0]] && [events[0]][1..] == [];
    } else {
      assert events[..k][1..] == events[1..][..k - 1] && events[..k + 1][1..] == events[1..][..k];
      LexicalAt(AfterEvent(scope, events[0]), events[1..], k - 1);
    }
  }

  predicate AnswersSpawn(e: Event) {
    e.Accepted? || e.Spilled? || e.Refused? || e.GaveBack?
  }

  /** What a `status` and a local spawn of the same scope say: no means refused, yes means
      accepted; but inside `enter`, and in a task of the inner runtime, it means a panic. */
  predicate Foretold(scope: Scope, status: Event, answer: Event) {
    && status == StatusWas(scope.In?)
    && if scope.Top? then answer == Refused || answer == GaveBack
       else answer == if scope.kind == Enter || scope.task == Some(Inner) then Spilled(scope.rt) else Accepted(scope.rt)
  }

  lemma LexicalPair(events: seq<Event>, k: nat)
    requires Lexical(Top, events) && k + 1 < |events| && events[k].StatusWas? && AnswersSpawn(events[k + 1])
    ensures Foretold(Replay(Top, events[..k]), events[k], events[k + 1])
  {
    LexicalAt(Top, events, k);
    LexicalAt(Top, events, k + 1);
  }

  /** In the log of any code, a `status` foretells the local spawn that directly follows it, and
      the runtime that accepts is the one entered last and not left. Only inside `enter` and in
      a task of the inner runtime is the promise not kept: the spawn panics after its reserve. */
  lemma StatusForetells(c: Code, ts: seq<Tally>, k: nat)
    requires Known(c, |ts|) && k + 1 < |Eval(c, Top, ts).events|
    requires Eval(c, Top, ts).events[k].StatusWas? && AnswersSpawn(Eval(c, Top, ts).events[k + 1])
    ensures var events := Eval(c, Top, ts).events;
            Foretold(Replay(Top, events[..k]), events[k], events[k + 1])
  {
    LogIsLexical(c, Top, ts);
    LexicalPair(Eval(c, Top, ts).events, k);
  }

  /** Which code an event can come from. */
  predicate CanLog(c: Code, x: Event) {
    match c
    case Then(first, second) => CanLog(first, x) || CanLog(second, x)
    case Entry(kind, rt, body) => x == Entered(kind, rt) || (x.Left? && x.kind == kind && x.rt == rt) || CanLog(body, x)
    case Deny(kind, rt, late) => x == Denied(kind, rt, late)
    case SpawnLocal => x.Accepted? || x.Spilled? || x == Refused
    case Execute => x.Accepted? || x.Spilled? || x == GaveBack
    case Spawn01 => x.Dispatched? || x == NoExecutor
    case SpawnOn(rt, e) => x == Handed(rt, e)
    case Status => x.StatusWas?
    case Look(rt) => x.Saw? && x.rt == rt
    case Poll(e, counted, completes, body) =>
      || (x.Polled? && x.executor == e) || CanLog(body, x)
      || (x.Rested? && x.executor == e && x.counted == counted && x.fate != if completes then Pending else Completed)
    case Catch(body) => CanLog(body, x)
    case _ => false
  }

  /** No event without its cause: what is refused by `execute`, and by nothing else, is handed
      back; and so on for every event of any log. */
  lemma {:induction false} EventsHaveCauses(c: Code, scope: Scope, ts: seq<Tally>, x: Event)
    requires Known(c, |ts|) && ScopeKnown(scope, |ts|) && x in Eval(c, scope, ts).events
    ensures CanLog(c, x)
    decreases c
  {
    match c
    case Then(first, second) =>
      var r := Eval(first, scope, ts);
      if x in r.events {
        EventsHaveCauses(first, scope, ts, x);
      } else {
        EventsHaveCauses(second, scope, r.tallies, x);
      }
    case Entry(kind, rt, body) =>
      var r := Eval(body, In(kind, rt, None), Admitted(kind, rt, ts));
      if x in r.events {
        EventsHaveCauses(body, In(kind, rt, None), Admitted(kind, rt, ts), x);
      }
    case Poll(e, counted, completes, body) =>
      var r := Eval(body, scope.(task := Some(e)), ts);
      if x in r.events {
        EventsHaveCauses(body, scope.(task := Some(e)), ts, x);
      }
    case Catch(body) => EventsHaveCauses(body, scope, ts, x);
    case _ =>
  }

  /** The runtime that a call is about, and whether it turns the call down. */
  function Target(c: Code, scope: Scope): nat {
    if c.SpawnOn? then c.rt else if scope.In? then scope.rt else 0
  }

  predicate TurnsDown(x: Event) {
    x == Refused || x == GaveBack || x == NoExecutor
  }

  predicate IsSpawn(c: Code) {
    c == SpawnLocal || c == Execute || c == Spawn01 || c.SpawnOn?
  }

  /** No call without its answer: every spawn, status and look, wherever it is made, is answered
      once. A spawn that is turned down counts nothing; one that is not raises the counter of its
      runtime by one, and no other; and nothing else touches a counter. */
  lemma CallsAreAnswered(c: Code, scope: Scope, ts: seq<Tally>, i: nat)
    requires Known(c, |ts|) && ScopeKnown(scope, |ts|) && i < |ts| && (IsSpawn(c) || c == Status || c.Look?)
    ensures var r := Eval(c, scope, ts);
            && |r.events| == 1 && CanLog(c, r.events[0]) && Answers(scope, r.events[0])
            && (TurnsDown(r.events[0]) <==> IsSpawn(c) && scope.Top? && !c.SpawnOn?)
            && r.tallies[i].counter ==
                 ts[i].counter + if IsSpawn(c) && !TurnsDown(r.events[0]) && i == Target(c, scope) then 1 else 0
  {
    var r := Eval(c, scope, ts);
    EventsHaveCauses(c, scope, ts, r.events[0]);
  }

  lemma SpillInTask()
    ensures var poll := Poll(Inner, true, true, Then(Status, SpawnLocal));
            Known(poll, 1) && Eval(poll, In(Run, 0, None), [Tally(1, 0, 1, 0)]) ==
              Result(Normal, [Tally(2, 0, 0, 2)],
                     [Polled(0, Inner), StatusWas(true), Spilled(0), Rested(0, Inner, true, Crashed)])
  {
    var r := Eval(Then(Status, SpawnLocal), In(Run, 0, Some(Inner)), [Tally(1, 0, 1, 0)]);
    assert r == Result(Unwound, [Tally(2, 0, 1, 1)], [StatusWas(true), Spilled(0)]);
  }

  lemma SpawnThenSpill()
    ensures var both := Then(Spawn01, Poll(Inner, true, true, Then(Status, SpawnLocal)));
            Known(both, 1) && Eval(both, In(Run, 0, None), [Tally(0, 0, 0, 0)]) ==
              Result(Normal, [Tally(2, 0, 0, 2)],
                     [Dispatched(0), Polled(0, Inner), StatusWas(true), Spilled(0), Rested(0, Inner, true, Crashed)])
  {
    SpillInTask();
    assert Eval(Spawn01, In(Run, 0, None), [Tally(0, 0, 0, 0)]) == Result(Normal, [Tally(1, 0, 1, 0)], [Dispatched(0)]);
  }

  /** The exception at work: a 0.1 future run on a new runtime asks for the status, is told yes,
      spawns locally and panics. Two tracks are lost: the one reserved, and its own. */
  lemma YesThenPanic()
    ensures Known(Entry(Run, 0, Then(Spawn01, Poll(Inner, true, true, Then(Status, SpawnLocal)))), 1)
    ensures var task := Then(Status, SpawnLocal);
            var r := Eval(Entry(Run, 0, Then(Spawn01, Poll(Inner, true, true, task))), Top, [Tally(0, 0, 0, 0)]);
            && r.outcome == Normal && r.tallies == [Tally(2, 0, 0, 2)]
            && r.events == [Entered(Run, 0), Dispatched(0), Polled(0, Inner), StatusWas(true), Spilled(0),
                            Rested(0, Inner, true, Crashed), Left(Run, 0, Normal)]
  {
    SpawnThenSpill();
  }

  // ---------------------------------------------------------------- what unwinds, what loses

  /** A local spawn panics where the tracker is set and no local set is current. */
  predicate Spills(scope: Scope) {
    scope.In? && !SetIsCurrent(scope)
  }

  /** Code unwinds by a panic, a nested or refused entry, or a local spawn that panics, uncaught.
      The executors catch what their tasks panic with. */
  predicate Unwinds(c: Code, scope: Scope) {
    match c
    case Then(first, second) => Unwinds(first, scope) || Unwinds(second, scope)
    case Entry(kind, rt, body) => scope.In? || Unwinds(body, In(kind, rt, None))
    case Deny(_, _, _) => true
    case SpawnLocal => Spills(scope)
    case Execute => Spills(scope)
    case LocalHandle => !SetIsCurrent(scope)
    case Fail => true
    case _ => false
  }

  lemma {:induction false} UnwindsIff(c: Code, scope: Scope, ts: seq<Tally>)
    requires Known(c, |ts|) && ScopeKnown(scope, |ts|)
    ensures Eval(c, scope, ts).outcome == Unwound <==> Unwinds(c, scope)
    decreases c
  {
    match c
    case Then(first, second) =>
      UnwindsIff(first, scope, ts);
      UnwindsIff(second, scope, Eval(first, scope, ts).tallies);
    case Entry(kind, rt, body) =>
      if scope.Top? {
        UnwindsIff(body, In(kind, rt, None), Admitted(kind, rt, ts));
      }
    case _ =>
  }

  /** What a poll makes of its task: a counted task that completes counts down by one and is no
      longer live, one that panics leaves the counter and is lost, and one that is neither, or is
      not counted, stays as its own code left things. The log says which. */
  lemma PollSettles(e: Executor, counted: bool, completes: bool, body: Code, scope: Scope, ts: seq<Tally>)
    requires Known(body, |ts|) && ScopeKnown(scope, |ts|) && CanPoll(scope, e, counted, ts)
    ensures var code := Poll(e, counted, completes, body);
            var panics := Unwinds(body, scope.(task := Some(e)));
            var before, r := Eval(body, scope.(task := Some(e)), ts).tallies, Eval(code, scope, ts);
            var t, t' := before[scope.rt], r.tallies[scope.rt];
            && r.outcome == Normal && r.events != []
            && r.events[|r.events| - 1] ==
                 Rested(scope.rt, e, counted, if panics then Crashed else if completes then Completed else Pending)
            && t'.counter == t.counter - (if counted && completes && !panics then 1 else 0)
            && t'.lost == t.lost + (if counted && panics then 1 else 0)
            && Live(t', e) == Live(t, e) - (if counted && (panics || completes) then 1 else 0)
            && forall i :: 0 <= i < |ts| && i != scope.rt ==> r.tallies[i] == before[i]
  {
    UnwindsIff(body, scope.(task := Some(e)), ts);
    NoneEnds(body, scope.(task := Some(e)), ts, scope.rt, e);
  }

  /** No reachable local spawn inside `enter` or in a task of the inner runtime, no `block_on`
      whose future unwinds or that is refused after its reserve, and no counted task that panics. */
  predicate Careful(c: Code, scope: Scope) {
    match c
    case Then(first, second) => Careful(first, scope) && (Unwinds(first, scope) || Careful(second, scope))
    case Entry(kind, rt, body) =>
      scope.In? || (Careful(body, In(kind, rt, None)) && (kind == BlockOn ==> !Unwinds(body, In(kind, rt, None))))
    case Deny(kind, _, late) => scope.In? || kind != BlockOn || !late
    case SpawnLocal => !Spills(scope)
    case Execute => !Spills(scope)
    case Poll(e, counted, _, body) =>
      Polling(scope) ==>
        Careful(body, scope.(task := Some(e))) && (counted ==> !Unwinds(body, scope.(task := Some(e))))
    case Catch(body) => Careful(body, scope)
    case _ => true
  }

  predicate LosesNothing(c: Code, scope: Scope, ts: seq<Tally>)
    requires Known(c, |ts|) && ScopeKnown(scope, |ts|)
  {
    forall i :: 0 <= i < |ts| ==> Eval(c, scope, ts).tallies[i].lost == ts[i].lost
  }

  lemma {:induction false} CarefulLosesNothing(c: Code, scope: Scope, ts: seq<Tally>)
    requires Known(c, |ts|) && ScopeKnown(scope, |ts|) && Careful(c, scope)
    ensures LosesNothing(c, scope, ts)
    decreases c
  {
    match c
    case Then(first, second) =>
      CarefulLosesNothing(first, scope, ts);
      UnwindsIff(first, scope, ts);
      if !Unwinds(first, scope) {
        CarefulLosesNothing(second, scope, Eval(first, scope, ts).tallies);
      }
    case Entry(kind, rt, body) =>
      if scope.Top? {
        CarefulLosesNothing(body, In(kind, rt, None), Admitted(kind, rt, ts));
        UnwindsIff(body, In(kind, rt, None), Admitted(kind, rt, ts));
      }
    case Poll(e, counted, _, body) =>
      if CanPoll(scope, e, counted, ts) {
        CarefulLosesNothing(body, scope.(task := Some(e)), ts);
        UnwindsIff(body, scope.(task := Some(e)), ts);
      }
    case Catch(body) => CarefulLosesNothing(body, scope, ts);
    case _ =>
  }

  /** How many tasks can come to an end while the code runs. */
  function Ends(c: Code): nat {
    match c
    case Then(first, second) => Ends(first) + Ends(second)
    case Entry(_, _, body) => Ends(body)
    case Poll(_, _, _, body) => 1 + Ends(body)
    case Catch(body) => Ends(body)
    case _ => 0
  }

  predicate Enough(t: Tally, n: nat) {
    t.local >= n && t.inner >= n
  }

  lemma {:induction false} FewEnd(c: Code, scope: Scope, ts: seq<Tally>, i: nat, n: nat)
    requires Known(c, |ts|) && ScopeKnown(scope, |ts|) && i < |ts| && Enough(ts[i], n + Ends(c))
    ensures Enough(Eval(c, scope, ts).tallies[i], n)
    decreases c
  {
    match c
    case Then(first, second) =>
      var r := Eval(first, scope, ts);
      FewEnd(first, scope, ts, i, n + Ends(second));
      if r.outcome == Normal {
        FewEnd(second, scope, r.tallies, i, n);
      }
    case Entry(kind, rt, body) =>
      if scope.Top? {
        FewEnd(body, In(kind, rt, None), Admitted(kind, rt, ts), i, n);
      }
    case Poll(e, counted, _, body) =>
      if CanPoll(scope, e, counted, ts) {
        FewEnd(body, scope.(task := Some(e)), ts, i, n + 1);
      }
    case Catch(body) => FewEnd(body, scope, ts, i, n);
    case _ =>
  }

  /** No lost track comes back. */
  lemma {:induction false} LossStays(c: Code, scope: Scope, ts: seq<Tally>, i: nat)
    requires Known(c, |ts|) && ScopeKnown(scope, |ts|) && i < |ts|
    ensures Eval(c, scope, ts).tallies[i].lost >= ts[i].lost
  {
    CountsAddUp(c, scope, ts, i);
  }

  /** Careless code does lose a track of some runtime, once that has enough live tasks. */
  lemma {:induction false} CarelessLoses(c: Code, scope: Scope, ts: seq<Tally>) returns (i: nat)
    requires Known(c, |ts|) && ScopeKnown(scope, |ts|) && !Careful(c, scope)
    requires forall j :: 0 <= j < |ts| ==> Enough(ts[j], Ends(c))
    ensures i < |ts| && Eval(c, scope, ts).tallies[i].lost > ts[i].lost
    decreases c
  {
    i := if scope.In? then scope.rt else 0;
    match c
    case Then(first, second) =>
      var ts' := Eval(first, scope, ts).tallies;
      UnwindsIff(first, scope, ts);
      if !Careful(first, scope) {
        i := CarelessLoses(first, scope, ts);
        LossStays(second, scope, ts', i);
      } else {
        forall j | 0 <= j < |ts| ensures Enough(ts'[j], Ends(second)) && ts'[j].lost >= ts[j].lost {
          FewEnd(first, scope, ts, j, Ends(second));
          LossStays(first, scope, ts, j);
        }
        i := CarelessLoses(second, scope, ts');
      }
    case Entry(kind, rt, body) =>
      var ts' := Admitted(kind, rt, ts);
      UnwindsIff(body, In(kind, rt, None), ts');
      if !Careful(body, In(kind, rt, None)) {
        i := CarelessLoses(body, In(kind, rt, None), ts');
      } else {
        i := rt;
        LossStays(body, In(kind, rt, None), ts', rt);
      }
    case Deny(_, rt, _) => i := rt;
    case Poll(e, counted, _, body) =>
      UnwindsIff(body, scope.(task := Some(e)), ts);
      assert Enough(ts[scope.rt], Ends(c));
      if !Careful(body, scope.(task := Some(e))) {
        i := CarelessLoses(body, scope.(task := Some(e)), ts);
      } else {
        LossStays(body, scope.(task := Some(e)), ts, i);
      }
    case Catch(body) => i := CarelessLoses(body, scope, ts);
    case _ =>
  }

  lemma SomethingLost(c: Code, scope: Scope, n: nat) returns (ts: seq<Tally>)
    requires Known(c, n) && ScopeKnown(scope, n) && !Careful(c, scope)
    ensures |ts| == n && !LosesNothing(c, scope, ts)
  {
    ts := seq(n, _ => Tally(0, Ends(c), Ends(c), 0));
    var i := CarelessLoses(c, scope, ts);
  }

  /** Exactly the careful code loses no track, of any runtime, whatever the code before it has
      left behind: then the counters still count live tasks alone. */
  lemma CarefulIff(c: Code, scope: Scope, n: nat)
    requires Known(c, n) && ScopeKnown(scope, n)
    ensures Careful(c, scope) <==> forall ts: seq<Tally> :: |ts| == n ==> LosesNothing(c, scope, ts)
  {
    if Careful(c, scope) {
      forall ts: seq<Tally> | |ts| == n ensures LosesNothing(c, scope, ts) {
        CarefulLosesNothing(c, scope, ts);
      }
    } else {
      var ts := SomethingLost(c, scope, n);
    }
  }
}
