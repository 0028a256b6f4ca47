/** The tracker of idle.rs as an object: `Idle`, `Rx` and every `Track` are handles to its
    fields. The tasks are the executor's; which of them runs next is never said. */
module Tracker {
  import opened Programs
  import opened Protocol
  import opened Invariants
  import opened Completion
  import opened Interleaving
  import opened Liveness

  class Tracker {
    /** The atomic counter, the tokens in the channel, and the senders alive. */
    var spawned: int
    var queue: nat
    var senders: nat
    var handles: nat
    /** Where the one caller of `idle` is. */
    var waiter: Waiter
    /** The executor's tasks, and the numbers that name and stamp them. */
    var tasks: seq<Task>
    var roots: nat
    var clock: nat
    ghost var crossings: nat
    ghost var consumed: nat
    /** What other threads will still do, at moments of their choice: spawn roots through
        handles, clone and drop handles, drop futures that have not completed. */
    var foreign: seq<Label>

    ghost function Abs(): State
      reads this
    {
      State(spawned, clock, tasks, roots, queue, waiter, senders, handles, crossings, consumed)
    }

    ghost predicate Valid()
      reads this
    {
      Sound(Abs())
    }

    /** `Idle::new`. */
    constructor ()
      ensures Abs() == FRESH
    {
      spawned, queue, senders, handles, waiter, tasks, roots := 0, 0, 1, 1, Outside, [], 0;
      clock, crossings, consumed, foreign := 0, 0, 0, [];
    }

    /** `Idle::reserve` and the spawn of `track.with(future)`. */
    method Reserve(path: Path, body: Prog)
      modifies this
      ensures Abs() == Protocol.Reserve(old(Abs()), path, body) && foreign == old(foreign)
    {
      spawned := spawned + 1;
      clock := clock + 1;
      senders := senders + 1;
      tasks := tasks + [Task(true, path, body, Running(body), 0, clock, 0)];
    }

    /** The executor gets a new root; a counted one is reserved first. */
    method AddRoot(counted: bool, body: Prog)
      modifies this
      ensures Abs() == Next(old(Abs()), Root(counted, body)) && foreign == old(foreign)
    {
      if counted {
        Reserve([roots], body);
        roots := roots + 1;
      } else {
        tasks := tasks + [Uncounted(body)];
      }
    }

    /** A counted root: `spawn_std` of a runtime, a handle or an executor. */
    method Spawn(body: Prog)
      requires Valid()
      modifies this
      ensures Valid() && Abs() == Next(old(Abs()), Root(true, body)) && foreign == old(foreign)
    {
      SoundStep(Abs(), Root(true, body));
      AddRoot(true, body);
    }

    /** `spawn_handle_std`: the executor gets the future, the tracker hears nothing of it. */
    method SpawnHandle(body: Prog)
      requires Valid()
      modifies this
      ensures Valid() && Abs() == Next(old(Abs()), Root(false, body)) && foreign == old(foreign)
    {
      SoundStep(Abs(), Root(false, body));
      AddRoot(false, body);
    }

    /** The end of `Track::with`, once the wrapped future has returned. */
    method Complete(i: nat)
      requires i < |tasks|
      modifies this
      ensures Abs() == Release(old(Abs()), i) && foreign == old(foreign)
    {
      var previous := spawned;
      spawned := spawned - 1;
      clock := clock + 1;
      if previous == 1 {
        tasks := tasks[i := tasks[i].(released := clock, phase := Sending)];
        crossings := crossings + 1;
      } else {
        tasks := tasks[i := tasks[i].(released := clock, phase := Done)];
        senders := Dec(senders);
      }
    }

    /** The executor runs the next action of task `i`. */
    method Poll(i: nat)
      requires i < |tasks| && tasks[i].phase.Running?
      modifies this
      ensures Abs() == Next(old(Abs()), Act(i)) && foreign == old(foreign)
    {
      var t := tasks[i];
      match t.phase.prog
      case Return =>
        if t.counted {
          Complete(i);
        } else {
          tasks := tasks[i := t.(phase := Done)];
        }
      case Work(rest) =>
        tasks := tasks[i := t.(phase := Running(rest))];
      case Spawn(child, rest) =>
        if t.counted {
          tasks := tasks[i := t.(phase := Running(rest), children := t.children + 1)];
          Reserve(t.path + [t.children], child);
        } else {
          tasks := tasks[i := t.(phase := Running(rest))];
          Reserve([roots], child);
          roots := roots + 1;
        }
      case SpawnHandle(child, rest) =>
        tasks := tasks[i := t.(phase := Running(rest))];
        tasks := tasks + [Uncounted(child)];
      case Panic =>
        tasks := tasks[i := t.(phase := Abandoned(t.phase.prog))];
        senders := if t.counted then Dec(senders) else senders;
    }

    /** The send that follows a `fetch_sub` that saw 1; the `Track` is dropped after it. */
    method Notify(i: nat)
      requires i < |tasks| && tasks[i].phase.Sending?
      modifies this
      ensures Abs() == Next(old(Abs()), Send(i)) && foreign == old(foreign)
    {
      tasks := tasks[i := tasks[i].(phase := Done)];
      queue := queue + 1;
      senders := Dec(senders);
    }

    /** The future of task `i` is dropped unfinished, its `Track` with it. */
    method DropFuture(i: nat)
      requires i < |tasks| && tasks[i].phase.Running?
      modifies this
      ensures Abs() == Next(old(Abs()), Drop(i)) && foreign == old(foreign)
    {
      var t := tasks[i];
      tasks := tasks[i := t.(phase := Abandoned(t.phase.prog))];
      senders := if t.counted then Dec(senders) else senders;
    }

    // ---------------------------------------------------------------- the others

    /** `trace` leads from `start` to here, by steps of tasks and waiter and of what is in `outside`. */
    ghost predicate Follows(start: State, trace: seq<Label>, outside: seq<Label>)
      reads this
    {
      && Valid() && Runs(start, trace) && Final(start, trace) == Abs() && From(trace, outside)
      && AllForeign(outside) && forall l :: l in foreign ==> l in outside
    }

    method Perform(l: Label)
      requires Foreign(l) && Enabled(Abs(), l)
      modifies this
      ensures Abs() == Next(old(Abs()), l) && foreign == old(foreign)
    {
      match l
      case Root(counted, body) => AddRoot(counted, body);
      case Drop(i) => DropFuture(i);
      case Clone => senders, handles := senders + 1, handles + 1;
      case Forget => senders, handles := Dec(senders), handles - 1;
    }

    /** Another thread does the next thing it has to do, or finds that there is nothing left to do it to. */
    method Disturb(ghost start: State, ghost before: seq<Label>, ghost outside: seq<Label>) returns (ghost trace: seq<Label>)
      requires Follows(start, before, outside) && foreign != []
      modifies this
      ensures Follows(start, trace, outside) && foreign == old(foreign)[1..]
      ensures var (s, l) := (old(Abs()), old(foreign)[0]);
              if Enabled(s, l) then Abs() == Next(s, l) && trace == before + [l] else Abs() == s && trace == before
      ensures waiter == old(waiter) && queue == old(queue) && consumed == old(consumed) && Loads(trace) == Loads(before)
      ensures |tasks| >= |old(tasks)|
      ensures forall i :: 0 <= i < |old(tasks)| && Drop(i) !in old(foreign) ==> Fails(tasks[i]) == Fails(old(tasks)[i])
    {
      var l := foreign[0];
      assert l in outside;
      foreign := foreign[1..];
      trace := before;
      if Enabled(State(spawned, clock, tasks, roots, queue, waiter, senders, handles, 0, 0), l) {
        ForeignLeaves(Abs(), l);
        trace := Extend(start, before, l, outside);
        SoundStep(Abs(), l);
        Perform(l);
      }
    }

    /** Some task that can move does. */
    method Advance(i: nat, ghost start: State, ghost before: seq<Label>, ghost outside: seq<Label>)
      returns (ghost trace: seq<Label>)
      requires Follows(start, before, outside)
      requires i < |tasks| && (tasks[i].phase.Running? || tasks[i].phase.Sending?)
      modifies this
      ensures Follows(start, trace, outside) && foreign == old(foreign)
      ensures waiter == old(waiter) && queue >= old(queue) && consumed == old(consumed) && Loads(trace) == Loads(before)
      ensures Measure(Abs()) < Measure(old(Abs()))
      ensures |tasks| >= |old(tasks)|
      ensures forall j :: 0 <= j < |old(tasks)| ==> Fails(tasks[j]) == Fails(old(tasks)[j])
    {
      ghost var s := Abs();
      ghost var l := if tasks[i].phase.Running? then Act(i) else Send(i);
      trace := Extend(start, before, l, outside);
      SoundStep(s, l);
      TaskLeaves(s, l);
      if tasks[i].phase.Running? {
        Poll(i);
      } else {
        Notify(i);
      }
      assert Abs() == Next(s, l);
    }

    /** Something happens: an adversary picks what. `false` when nothing can any more. */
    method Progress(ghost start: State, ghost before: seq<Label>, ghost outside: seq<Label>)
      returns (moved: bool, ghost trace: seq<Label>)
      requires Follows(start, before, outside)
      modifies this
      ensures Follows(start, trace, outside)
      ensures waiter == old(waiter) && queue >= old(queue) && consumed == old(consumed) && Loads(trace) == Loads(before)
      ensures moved ==> Less(|foreign|, Measure(Abs()), |old(foreign)|, Measure(old(Abs())))
      ensures !moved ==> Abs() == old(Abs()) && foreign == [] && Frozen(tasks)
      ensures |tasks| >= |old(tasks)| && forall l :: l in foreign ==> l in old(foreign)
      ensures forall i :: 0 <= i < |old(tasks)| && Drop(i) !in old(foreign) ==> Fails(tasks[i]) == Fails(old(tasks)[i])
    {
      moved := true;
      var others := *;
      if foreign != [] && others {
        trace := Disturb(start, before, outside);
      } else if i :| 0 <= i < |tasks| && (tasks[i].phase.Running? || tasks[i].phase.Sending?) {
        trace := Advance(i, start, before, outside);
      } else if foreign != [] {
        trace := Disturb(start, before, outside);
      } else {
        moved, trace := false, before;
      }
    }

    /** The others run for a while. */
    method Interleave(ghost start: State, ghost before: seq<Label>, ghost outside: seq<Label>)
      returns (ghost trace: seq<Label>)
      requires Follows(start, before, outside)
      modifies this
      ensures Follows(start, trace, outside)
      ensures waiter == old(waiter) && queue >= old(queue) && consumed == old(consumed) && Loads(trace) == Loads(before)
      ensures AtMost(|foreign|, Measure(Abs()), |old(foreign)|, Measure(old(Abs())))
    {
      trace := before;
      while *
        invariant Follows(start, trace, outside)
        invariant waiter == old(waiter) && queue >= old(queue) && consumed == old(consumed) && Loads(trace) == Loads(before)
        invariant AtMost(|foreign|, Measure(Abs()), |old(foreign)|, Measure(old(Abs())))
        decreases |foreign|, Measure(Abs())
      {
        var moved;
        moved, trace := Progress(start, trace, outside);
        if !moved {
          break;
        }
      }
    }

    /** The executor runs until task `root` has come to its end. */
    method Drive(root: nat, outside: seq<Label>) returns (completed: bool, ghost trace: seq<Label>)
      requires Valid() && root < |tasks| && AllForeign(outside) && Drop(root) !in outside
      modifies this
      ensures Valid() && waiter == old(waiter) && root < |tasks|
      ensures Runs(old(Abs()), trace) && Final(old(Abs()), trace) == Abs() && From(trace, outside)
      ensures if completed then tasks[root].phase.Done? else tasks[root].phase.Abandoned?
      ensures completed <==> !Fails(old(tasks[root]))
    {
      ghost var start := Abs();
      foreign := outside;
      trace := [];
      while tasks[root].phase.Running? || tasks[root].phase.Sending?
        invariant Follows(start, trace, outside) && waiter == old(waiter) && root < |tasks|
        invariant Drop(root) !in foreign && Fails(tasks[root]) == Fails(start.tasks[root])
        decreases |foreign|, Measure(Abs())
      {
        var moved;
        moved, trace := Progress(start, trace, outside);
      }
      completed := tasks[root].phase.Done?;
    }

    // ---------------------------------------------------------------- the waiter

    /** Waits until a token is queued; `false` when none will ever come. */
    method Await(ghost start: State, ghost before: seq<Label>, ghost outside: seq<Label>)
      returns (ready: bool, ghost trace: seq<Label>)
      requires Follows(start, before, outside) && waiter == Receiving
      modifies this
      ensures Follows(start, trace, outside) && waiter == Receiving && Loads(trace) == Loads(before)
      ensures AtMost(|foreign|, Measure(Abs()), |old(foreign)|, Measure(old(Abs())))
      ensures ready ==> queue > 0
      ensures !ready ==> queue == 0 && foreign == [] && Frozen(tasks)
    {
      trace := before;
      ready := true;
      while queue == 0
        invariant Follows(start, trace, outside) && waiter == Receiving && Loads(trace) == Loads(before)
        invariant AtMost(|foreign|, Measure(Abs()), |old(foreign)|, Measure(old(Abs())))
        invariant ready
        decreases |foreign|, Measure(Abs())
      {
        ready, trace := Progress(start, trace, outside);
        if !ready {
          return;
        }
      }
    }

    /** `recv().await`: waits for a token and takes it. `false` when none will ever come. */
    method Receive(ghost start: State, ghost before: seq<Label>, ghost outside: seq<Label>)
      returns (received: bool, ghost trace: seq<Label>)
      requires Follows(start, before, outside) && waiter == Receiving
      modifies this
      ensures Follows(start, trace, outside) && Loads(trace) == Loads(before)
      ensures received ==> waiter == Checking
      ensures received ==> Less(|foreign|, Measure(Abs()), |old(foreign)|, Measure(old(Abs())))
      ensures !received ==> waiter == Receiving && queue == 0 && foreign == [] && Frozen(tasks)
    {
      received, trace := Await(start, before, outside);
      if received {
        trace := Take(start, trace, outside);
      }
    }

    method Take(ghost start: State, ghost before: seq<Label>, ghost outside: seq<Label>) returns (ghost trace: seq<Label>)
      requires Follows(start, before, outside) && waiter == Receiving && queue > 0
      modifies this
      ensures Follows(start, trace, outside) && foreign == old(foreign)
      ensures Loads(trace) == Loads(before) && waiter == Checking && Measure(Abs()) < Measure(old(Abs()))
    {
      ghost var s := Abs();
      SoundStep(s, Recv);
      MeasureDecreases(s, Recv);
      trace := Extend(start, before, Recv, outside);
      waiter := Checking;
      queue := queue - 1;
      consumed := consumed + 1;
      assert Abs() == Next(s, Recv);
    }

    /** The load in `idle`, and what the loop test makes of it. */
    method Load(ghost start: State, ghost before: seq<Label>, ghost outside: seq<Label>)
      returns (n: int, ghost trace: seq<Label>)
      requires Follows(start, before, outside) && waiter == Checking
      modifies this
      ensures Follows(start, trace, outside) && foreign == old(foreign)
      ensures n == spawned && waiter == (if n == 0 then Outside else Receiving)
      ensures Loads(trace) == Loads(before) + 1 && Measure(Abs()) < Measure(old(Abs()))
    {
      n := spawned;
      ghost var s := Abs();
      SoundStep(s, Label.Load(n == 0));
      MeasureDecreases(s, Label.Load(n == 0));
      trace := Extend(start, before, Label.Load(n == 0), outside);
      waiter := if n == 0 then Outside else Receiving;
      assert Abs() == Next(s, Label.Load(n == 0));
    }

    /** `Rx::idle`, for every schedule, any tokens left over from earlier calls, and whatever
        other threads do meanwhile. It returns only from a state in which no counted task is
        lost or bound to be, and at counter 0 with every counted tree complete; it does return
        from a state that loses nothing, unless the others bring a loss. Its loop is bounded.
        When it does not return, nothing can move. */
    method Idle(outside: seq<Label>) returns (returned: bool, loads: nat, ghost trace: seq<Label>)
      requires Valid() && waiter == Outside && AllForeign(outside)
      modifies this
      ensures Valid()
      ensures Runs(Next(old(Abs()), Call), trace) && From(trace, outside)
      ensures Abs() == Final(Next(old(Abs()), Call), trace)
      ensures returned <==> Sum(Lost, tasks) == 0
      ensures returned ==> Safe(old(Abs()))
      ensures Sturdy(old(Abs())) && AllTame(outside) ==> returned
      ensures returned ==> waiter == Outside && spawned == 0
      ensures returned ==> AllDone(Abs())
      ensures !returned ==> waiter == Receiving && queue == 0 && Frozen(tasks)
      ensures loads == Loads(trace) <= 1 + old(queue) + Sum(Notifying, old(tasks)) + Crossings(Next(old(Abs()), Call), trace)
    {
      ghost var s := Abs();
      Begin(outside);
      SameTasksSameFate(s, Abs());
      ghost var start := Abs();
      returned, loads, trace := Loop(start, outside);
      CallEnds(start, trace, outside, returned);
    }

    method Begin(outside: seq<Label>)
      requires Valid() && waiter == Outside && AllForeign(outside)
      modifies this
      ensures Abs() == Next(old(Abs()), Call) && Follows(Abs(), [], outside)
    {
      SoundStep(Abs(), Call);
      waiter := Checking;
      foreign := outside;
    }

    method Loop(ghost start: State, ghost outside: seq<Label>) returns (returned: bool, loads: nat, ghost trace: seq<Label>)
      requires Follows(start, [], outside) && waiter == Checking
      modifies this
      ensures Follows(start, trace, outside) && loads == Loads(trace)
      ensures returned ==> waiter == Outside && spawned == 0
      ensures !returned ==> waiter == Receiving && queue == 0 && Frozen(tasks)
    {
      trace := Interleave(start, [], outside);
      var n;
      n, trace := Load(start, trace, outside);
      loads := 1;
      returned := true;
      while n != 0
        invariant Follows(start, trace, outside) && loads == Loads(trace) && returned
        invariant (n == 0 ==> spawned == 0) && waiter == (if n == 0 then Outside else Receiving)
        decreases |foreign|, Measure(Abs())
      {
        returned, n, trace := Around(start, trace, outside);
        if !returned {
          return;
        }
        loads := loads + 1;
      }
    }

    /** Once around the loop: `recv`, and the next load. */
    method Around(ghost start: State, ghost before: seq<Label>, ghost outside: seq<Label>)
      returns (received: bool, n: int, ghost trace: seq<Label>)
      requires Follows(start, before, outside) && waiter == Receiving
      modifies this
      ensures Follows(start, trace, outside)
      ensures received ==> n == spawned && waiter == (if n == 0 then Outside else Receiving)
      ensures received ==> Loads(trace) == Loads(before) + 1
      ensures received ==> Less(|foreign|, Measure(Abs()), |old(foreign)|, Measure(old(Abs())))
      ensures !received ==> waiter == Receiving && queue == 0 && Frozen(tasks) && Loads(trace) == Loads(before)
    {
      n := 0;
      received, trace := Receive(start, before, outside);
      if received {
        trace := Interleave(start, trace, outside);
        n, trace := Load(start, trace, outside);
      }
    }
  }

  /** A tracker as a new runtime gets it. */
  method New() returns (t: Tracker)
    ensures fresh(t) && t.Valid()
    ensures t.waiter == Outside && t.tasks == [] && t.roots == 0
  {
    t := new Tracker();
    FreshIsReady(t.Abs());
  }

  lemma FreshIsReady(s: State)
    requires s == FRESH
    ensures Sound(s)
  {
    FreshIsSound();
  }

  // ---------------------------------------------------------------- traces

  /** What other threads can do while `idle` or `block_on` runs. */
  predicate Foreign(l: Label) {
    l.Root? || l.Drop? || l.Clone? || l.Forget?
  }

  predicate AllForeign(ls: seq<Label>) {
    forall l :: l in ls ==> Foreign(l)
  }

  predicate AllTame(ls: seq<Label>) {
    forall l :: l in ls ==> Tame(l)
  }

  predicate AllHarmless(ls: seq<Label>) {
    forall l :: l in ls ==> HarmlessLabel(l)
  }

  /** Steps of the tasks, of the waiter, and of what is in `outside`. */
  predicate From(ls: seq<Label>, outside: seq<Label>) {
    forall i :: 0 <= i < |ls| ==> (Internal(ls[i]) && !ls[i].Drop?) || ls[i] in outside
  }

  ghost predicate IsRunFrom(s: State, ls: seq<Label>, outside: seq<Label>, s': State) {
    Runs(s, ls) && From(ls, outside) && Final(s, ls) == s'
  }

  /** Nothing but steps of the tasks, of the waiter, and of what is in `outside` leads from one state to the other. */
  ghost predicate Leads(s: State, s': State, outside: seq<Label>) {
    exists ls :: IsRunFrom(s, ls, outside, s')
  }

  /** So no future is dropped but by the others, and whether one completes is as it was settled. */
  lemma LeadsToItsFate(s: State, s': State, outside: seq<Label>, i: nat)
    requires Sound(s) && Leads(s, s', outside) && i < |s.tasks| && Drop(i) !in outside
    ensures i < |s'.tasks| && Fails(s'.tasks[i]) == Fails(s.tasks[i])
  {
    var ls :| IsRunFrom(s, ls, outside, s');
    FateRun(s, ls, outside, i);
  }

  lemma {:induction false} FateRun(s: State, ls: seq<Label>, outside: seq<Label>, i: nat)
    requires Sound(s) && Runs(s, ls) && From(ls, outside) && i < |s.tasks| && Drop(i) !in outside
    ensures i < |Final(s, ls).tasks| && Fails(Final(s, ls).tasks[i]) == Fails(s.tasks[i])
    decreases |ls|
  {
    if ls != [] {
      FateIsSettled(s, ls[0], i);
      SoundStep(s, ls[0]);
      KeptStep(s, ls[0]);
      assert From(ls[1..], outside);
      FateRun(Next(s, ls[0]), ls[1..], outside, i);
    }
  }

  predicate Less(f: nat, m: nat, f0: nat, m0: nat) {
    f < f0 || (f == f0 && m < m0)
  }

  predicate AtMost(f: nat, m: nat, f0: nat, m0: nat) {
    f < f0 || (f == f0 && m <= m0)
  }

  /** No task can move. */
  predicate Frozen(ts: seq<Task>) {
    forall i :: 0 <= i < |ts| ==> !ts[i].phase.Running? && !ts[i].phase.Sending?
  }

  /** A waiter blocked among tasks that cannot move waits for an abandoned track. */
  lemma FrozenByFailure(s: State)
    requires Sound(s) && s.waiter == Receiving && s.queue == 0 && Frozen(s.tasks)
    ensures Sum(Lost, s.tasks) > 0
  {
    ChannelStaysOpen(s);
    assert Stuck(s);
    BlockedOnlyByFailure(s);
  }

  lemma ForeignLeaves(s: State, l: Label)
    requires Foreign(l) && Enabled(s, l)
    ensures Next(s, l).waiter == s.waiter && Next(s, l).queue == s.queue && Next(s, l).consumed == s.consumed
    ensures |Next(s, l).tasks| >= |s.tasks| && Allowed(s, l) && !l.Load? && l != Call
    ensures forall i :: 0 <= i < |s.tasks| && l != Drop(i) ==> Fails(Next(s, l).tasks[i]) == Fails(s.tasks[i])
  {
    forall i | 0 <= i < |s.tasks| && l != Drop(i) ensures Fails(Next(s, l).tasks[i]) == Fails(s.tasks[i]) {
      FateIsSettled(s, l, i);
    }
  }

  lemma TaskLeaves(s: State, l: Label)
    requires Good(s) && Enabled(s, l) && (l.Act? || l.Send?)
    ensures Next(s, l).waiter == s.waiter && Next(s, l).queue >= s.queue && Next(s, l).consumed == s.consumed
    ensures Measure(Next(s, l)) < Measure(s) && |Next(s, l).tasks| >= |s.tasks|
    ensures forall i :: 0 <= i < |s.tasks| ==> Fails(Next(s, l).tasks[i]) == Fails(s.tasks[i])
  {
    MeasureDecreases(s, l);
    if l.Act? {
      ActLeaves(s, l.i);
    }
    forall i | 0 <= i < |s.tasks| ensures Fails(Next(s, l).tasks[i]) == Fails(s.tasks[i]) {
      FateIsSettled(s, l, i);
    }
  }

  lemma SameTasksSameFate(s: State, s': State)
    requires s'.tasks == s.tasks
    ensures Safe(s') == Safe(s) && Sturdy(s') == Sturdy(s) && Harmless(s') == Harmless(s)
  {
  }

  /** How a call of `idle` ends is settled by the state it begins in, as far as the others do no harm. */
  lemma CallIsDecided(s: State, ls: seq<Label>, outside: seq<Label>)
    requires Sound(s) && Runs(s, ls) && From(ls, outside)
    ensures Sum(Owing, Final(s, ls).tasks) == 0 ==> Safe(s)
    ensures AllTame(outside) ==> (Sturdy(Final(s, ls)) <==> Sturdy(s))
    ensures AllHarmless(outside) && Harmless(s) ==> Harmless(Final(s, ls))
    ensures Sturdy(Final(s, ls)) ==> Sum(Lost, Final(s, ls).tasks) == 0
  {
    var s' := Final(s, ls);
    SoundRun(s, ls);
    if !Safe(s) {
      UnsafeForever(s, ls);
      UnsafeIsOwed(s');
    }
    if AllTame(outside) {
      SturdyRun(s, ls);
    }
    if AllHarmless(outside) && Harmless(s) {
      HarmlessRun(s, ls);
    }
    if Sturdy(s') {
      SturdyIsSafe(s');
      SafeLosesNone(s');
    }
  }

  predicate Ended(s: State, returned: bool) {
    if returned then s.counter == 0 else s.waiter == Receiving && s.queue == 0 && Frozen(s.tasks)
  }

  lemma EndIsPlain(s: State, returned: bool)
    requires Sound(s) && Ended(s, returned)
    ensures returned <==> Sum(Lost, s.tasks) == 0
    ensures returned ==> AllDone(s) && Sum(Owing, s.tasks) == 0
  {
    if returned {
      ZeroMeansComplete(s);
      ZeroMeansNoneLost(s);
    } else {
      FrozenByFailure(s);
    }
  }

  lemma CallEnds(s: State, ls: seq<Label>, outside: seq<Label>, returned: bool)
    requires Sound(s) && s.waiter == Checking && Runs(s, ls) && From(ls, outside) && AllForeign(outside)
    requires Ended(Final(s, ls), returned)
    ensures returned <==> Sum(Lost, Final(s, ls).tasks) == 0
    ensures returned ==> Safe(s) && AllDone(Final(s, ls))
    ensures Sturdy(s) && AllTame(outside) ==> returned
    ensures Loads(ls) <= 1 + s.queue + Sum(Notifying, s.tasks) + Crossings(s, ls)
  {
    SoundRun(s, ls);
    EndIsPlain(Final(s, ls), returned);
    CallIsDecided(s, ls, outside);
    LoopIsBounded(s, ls);
  }

  /** Every counted task has completed, with its whole counted tree. */
  ghost predicate AllDone(s: State) {
    forall i :: 0 <= i < |s.tasks| && s.tasks[i].counted ==> TreeDone(s, i, s.clock)
  }

  lemma Extend(start: State, ls: seq<Label>, l: Label, outside: seq<Label>) returns (more: seq<Label>)
    requires Runs(start, ls) && Allowed(Final(start, ls), l) && From(ls, outside)
    requires (Internal(l) && !l.Drop?) || l in outside
    ensures Runs(start, more) && Final(start, more) == Next(Final(start, ls), l) && From(more, outside)
    ensures more == ls + [l] && Loads(more) == Loads(ls) + if l.Load? then 1 else 0
  {
    more := ls + [l];
    assert [l][1..] == [];
    RunsConcat(start, ls, [l]);
    LoadsAppend(ls, l);
  }

  lemma {:induction false} LoadsAppend(ls: seq<Label>, l: Label)
    ensures Loads(ls + [l]) == Loads(ls) + if l.Load? then 1 else 0
  {
    if ls == [] {
      assert [l][1..] == [] && ls + [l] == [l];
    } else {
      assert (ls + [l])[1..] == ls[1..] + [l];
      LoadsAppend(ls[1..], l);
    }
  }
}
