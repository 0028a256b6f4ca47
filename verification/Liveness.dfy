/** When `idle` returns, told from the state it is called in: exactly when no counted task is
    abandoned or bound to panic, under every schedule. */
module Liveness {
  import opened Programs
  import opened Protocol
  import opened Invariants
  import opened Interleaving

  // ---------------------------------------------------------------- zero is stable

  /** No task spawned without counting will spawn a counted one. */
  ghost predicate Harmless(s: State) {
    forall i :: 0 <= i < |s.tasks| ==> HarmlessTask(s.tasks[i])
  }

  predicate HarmlessTask(t: Task) {
    t.phase.Running? ==> if t.counted then Separated(t.phase.prog) else HandleOnly(t.phase.prog)
  }

  /** A root that keeps counted work out of uncounted tasks. */
  predicate HarmlessLabel(l: Label) {
    l.Root? ==> if l.counted then Separated(l.body) else HandleOnly(l.body)
  }

  lemma HarmlessStep(s: State, l: Label)
    requires Harmless(s) && HarmlessLabel(l) && Enabled(s, l)
    ensures Harmless(Next(s, l))
  {
    if l.Act? {
      assert HarmlessTask(s.tasks[l.i]);
    }
  }

  lemma {:induction false} HarmlessRun(s: State, ls: seq<Label>)
    requires Harmless(s) && Runs(s, ls) && forall i :: 0 <= i < |ls| ==> HarmlessLabel(ls[i])
    ensures Harmless(Final(s, ls))
    decreases |ls|
  {
    if ls != [] {
      HarmlessStep(s, ls[0]);
      assert forall i :: 0 <= i < |ls[1..]| ==> ls[1..][i] == ls[i + 1];
      HarmlessRun(Next(s, ls[0]), ls[1..]);
    }
  }

  /** Once no counted task is live, no internal step starts one. */
  lemma ZeroStaysZero(s: State, l: Label)
    requires Good(s) && Harmless(s) && s.counter == 0 && Enabled(s, l) && Internal(l)
    ensures Next(s, l).counter == 0
  {
    if l.Act? {
      SumIncludes(Owing, s.tasks, l.i);
      assert HarmlessTask(s.tasks[l.i]);
    }
  }

  lemma {:induction false} ZeroIsStable(s: State, ls: seq<Label>)
    requires Sound(s) && Harmless(s) && s.counter == 0 && Runs(s, ls) && AllInternal(ls)
    ensures Final(s, ls).counter == 0
    decreases |ls|
  {
    if ls != [] {
      SoundStep(s, ls[0]);
      HarmlessStep(s, ls[0]);
      ZeroStaysZero(s, ls[0]);
      assert forall i :: 0 <= i < |ls[1..]| ==> ls[1..][i] == ls[i + 1];
      ZeroIsStable(Next(s, ls[0]), ls[1..]);
    }
  }

  // ---------------------------------------------------------------- maximal runs

  /** A call that has returned did so at 0, and the counter is still 0. */
  lemma {:induction false} ReturnedAtZero(s: State, ls: seq<Label>)
    requires Sound(s) && Harmless(s) && (s.waiter == Outside ==> s.counter == 0)
    requires Runs(s, ls) && AllInternal(ls)
    ensures Final(s, ls).waiter == Outside ==> Final(s, ls).counter == 0
    decreases |ls|
  {
    if ls != [] {
      var s' := Next(s, ls[0]);
      SoundStep(s, ls[0]);
      HarmlessStep(s, ls[0]);
      if s'.waiter == Outside {
        if s.waiter == Outside {
          ZeroStaysZero(s, ls[0]);
        } else {
          assert ls[0] == Load(true) by {
            WaiterMoves(s, ls[0]);
          }
        }
      }
      assert forall i :: 0 <= i < |ls[1..]| ==> ls[1..][i] == ls[i + 1];
      ReturnedAtZero(s', ls[1..]);
    }
  }

  lemma WaiterMoves(s: State, l: Label)
    requires Enabled(s, l) && s.waiter != Outside && Next(s, l).waiter == Outside
    ensures l == Load(true)
  {
  }

  // ---------------------------------------------------------------- what decides it

  /** A counted task that is neither abandoned nor bound to lose itself or a counted task below it. */
  predicate SafeTask(t: Task) {
    t.counted ==>
      match t.phase
      case Running(p) => CountedTotal(p)
      case Abandoned(_) => false
      case _ => true
  }

  ghost predicate Safe(s: State) {
    forall i :: 0 <= i < |s.tasks| ==> SafeTask(s.tasks[i])
  }

  /** Of what the tasks may still spawn, below uncounted tasks too, nothing counted gets lost. */
  predicate SturdyTask(t: Task) {
    match t.phase
    case Running(p) => TreeTotal(p, t.counted)
    case Abandoned(_) => !t.counted
    case _ => true
  }

  ghost predicate Sturdy(s: State) {
    forall i :: 0 <= i < |s.tasks| ==> SturdyTask(s.tasks[i])
  }

  lemma SturdyIsSafe(s: State)
    requires Sturdy(s)
    ensures Safe(s)
  {
    forall i | 0 <= i < |s.tasks| ensures SafeTask(s.tasks[i]) {
      assert SturdyTask(s.tasks[i]);
      if s.tasks[i].counted && s.tasks[i].phase.Running? {
        TreeTotalIsCountedTotal(s.tasks[i].phase.prog);
      }
    }
  }

  /** Where uncounted tasks spawn nothing counted, the two conditions are one. */
  lemma HarmlessSturdy(s: State)
    requires Harmless(s)
    ensures Sturdy(s) <==> Safe(s)
  {
    if Safe(s) {
      forall i | 0 <= i < |s.tasks| ensures SturdyTask(s.tasks[i]) {
        assert HarmlessTask(s.tasks[i]) && SafeTask(s.tasks[i]);
        if s.tasks[i].phase.Running? {
          if s.tasks[i].counted {
            SeparatedTotal(s.tasks[i].phase.prog);
          } else {
            HandleOnlyIsTotal(s.tasks[i].phase.prog);
          }
        }
      }
    } else if Sturdy(s) {
      SturdyIsSafe(s);
    }
  }

  /** No step whatever makes up for a task that is lost or bound to be: it stays so, or its
      doomed child does. */
  lemma UnsafeMoves(s: State, l: Label, j: nat) returns (k: nat)
    requires Enabled(s, l) && j < |s.tasks| && !SafeTask(s.tasks[j])
    ensures k < |Next(s, l).tasks| && !SafeTask(Next(s, l).tasks[k]) && s.tasks[j].path <= Next(s, l).tasks[k].path
  {
    var s' := Next(s, l);
    k := if l == Act(j) && s.tasks[j].phase.prog.Spawn? && SafeTask(s'.tasks[j]) then |s.tasks| else j;
  }

  lemma UnsafeStays(s: State, l: Label)
    requires !Safe(s) && Enabled(s, l)
    ensures !Safe(Next(s, l))
  {
    var j :| 0 <= j < |s.tasks| && !SafeTask(s.tasks[j]);
    var _ := UnsafeMoves(s, l, j);
  }

  lemma LosesCounted(s: State, l: Label)
    requires Enabled(s, l) && l.Drop? && s.tasks[l.i].counted
    ensures !Safe(Next(s, l))
  {
    assert !SafeTask(Next(s, l).tasks[l.i]);
  }

  lemma SafeStays(s: State, l: Label)
    requires Safe(s) && Harmless(s) && Enabled(s, l) && Internal(l) && !(l.Drop? && s.tasks[l.i].counted)
    ensures Safe(Next(s, l))
  {
    if l.Act? {
      assert SafeTask(s.tasks[l.i]) && HarmlessTask(s.tasks[l.i]);
    }
  }

  /** A counted task's own steps leave a safe runtime safe, uncounted work or not. */
  lemma SafeAct(s: State, i: nat)
    requires Safe(s) && Enabled(s, Act(i)) && s.tasks[i].counted
    ensures Safe(Next(s, Act(i)))
  {
    assert SafeTask(s.tasks[i]);
  }

  /** No future is dropped, and the roots that are spawned lose nothing. */
  predicate Tame(l: Label) {
    match l
    case Root(counted, body) => TreeTotal(body, counted)
    case Drop(_) => false
    case _ => true
  }

  lemma SturdyStep(s: State, l: Label)
    requires Enabled(s, l) && Tame(l)
    ensures Sturdy(Next(s, l)) <==> Sturdy(s)
  {
    var s' := Next(s, l);
    if Sturdy(s) {
      if l.Act? {
        assert SturdyTask(s.tasks[l.i]);
      }
    } else {
      var i :| 0 <= i < |s.tasks| && !SturdyTask(s.tasks[i]);
      if l == Act(i) && SturdyTask(s'.tasks[i]) {
        assert !SturdyTask(s'.tasks[|s.tasks|]);
      } else {
        assert !SturdyTask(s'.tasks[i]);
      }
    }
  }

  lemma {:induction false} SturdyRun(s: State, ls: seq<Label>)
    requires Runs(s, ls) && forall i :: 0 <= i < |ls| ==> Tame(ls[i])
    ensures Sturdy(Final(s, ls)) <==> Sturdy(s)
    decreases |ls|
  {
    if ls != [] {
      SturdyStep(s, ls[0]);
      assert forall i :: 0 <= i < |ls[1..]| ==> ls[1..][i] == ls[i + 1];
      SturdyRun(Next(s, ls[0]), ls[1..]);
    }
  }

  lemma SafeLosesNone(s: State)
    requires Safe(s)
    ensures Sum(Lost, s.tasks) == 0
  {
    forall i | 0 <= i < |s.tasks| ensures Value(Lost, s.tasks[i]) == 0 {
      assert SafeTask(s.tasks[i]);
    }
    SumZero(Lost, s.tasks);
  }

  /** Where no counted task runs any more, safe means that none is lost; sturdy means safe where none runs at all. */
  lemma SafeAtEnd(s: State)
    requires forall i :: 0 <= i < |s.tasks| && s.tasks[i].counted ==> !s.tasks[i].phase.Running?
    ensures Safe(s) <==> Sum(Lost, s.tasks) == 0
    ensures (forall i :: 0 <= i < |s.tasks| ==> !s.tasks[i].phase.Running?) ==> (Sturdy(s) <==> Safe(s))
  {
    if Safe(s) {
      SafeLosesNone(s);
    } else {
      var i :| 0 <= i < |s.tasks| && !SafeTask(s.tasks[i]);
      SumIncludes(Lost, s.tasks, i);
      assert Value(Lost, s.tasks[i]) == 1 && !SturdyTask(s.tasks[i]);
    }
    if forall i :: 0 <= i < |s.tasks| ==> !s.tasks[i].phase.Running? {
      assert Safe(s) ==> forall i :: 0 <= i < |s.tasks| ==> SafeTask(s.tasks[i]) && SturdyTask(s.tasks[i]);
    }
  }

  // ---------------------------------------------------------------- a call without new roots

  /** Some counted task is dropped in the run. */
  predicate DropsCounted(s: State, ls: seq<Label>)
    requires Runs(s, ls)
    decreases |ls|
  {
    ls != [] && ((ls[0].Drop? && s.tasks[ls[0].i].counted) || DropsCounted(Next(s, ls[0]), ls[1..]))
  }

  lemma {:induction false} SafeRunIff(s: State, ls: seq<Label>)
    requires Harmless(s) && Runs(s, ls) && AllInternal(ls)
    ensures Safe(Final(s, ls)) <==> Safe(s) && !DropsCounted(s, ls)
    decreases |ls|
  {
    if ls != [] {
      HarmlessStep(s, ls[0]);
      assert forall i :: 0 <= i < |ls[1..]| ==> ls[1..][i] == ls[i + 1];
      SafeRunIff(Next(s, ls[0]), ls[1..]);
      if !Safe(s) {
        UnsafeStays(s, ls[0]);
      } else if ls[0].Drop? && s.tasks[ls[0].i].counted {
        LosesCounted(s, ls[0]);
      } else {
        SafeStays(s, ls[0]);
      }
    }
  }

  lemma StuckHasNoneRunning(s: State)
    requires Stuck(s)
    ensures forall i :: 0 <= i < |s.tasks| ==> !s.tasks[i].phase.Running?
  {
    forall i | 0 <= i < |s.tasks| ensures !s.tasks[i].phase.Running? {
      assert !Allowed(s, Act(i));
    }
  }

  /** In a runtime without new roots, every run of a call to `idle` that can go no further has
      returned if and only if the call was made in a safe state and no counted task was dropped
      while it lasted. */
  lemma IdleReturnsIff(s: State, ls: seq<Label>)
    requires Sound(s) && Harmless(s) && s.waiter == Checking
    requires Runs(s, ls) && AllInternal(ls) && Stuck(Final(s, ls))
    ensures Final(s, ls).waiter == Outside <==> Safe(s) && !DropsCounted(s, ls)
  {
    SoundRun(s, ls);
    ReturnedAtZero(s, ls);
    StuckShape(Final(s, ls));
    BlockedOnlyByFailure(Final(s, ls));
    SafeRunIff(s, ls);
    StuckHasNoneRunning(Final(s, ls));
    SafeAtEnd(Final(s, ls));
  }

  // ---------------------------------------------------------------- some schedule, every schedule

  /** Steps of the tasks and of the waiter, and nothing else. */
  predicate Quiet(ls: seq<Label>) {
    forall i :: 0 <= i < |ls| ==> Internal(ls[i]) && !ls[i].Drop?
  }

  /** One call of `idle`, run as far as it goes. */
  ghost predicate Maximal(s: State, ls: seq<Label>) {
    Runs(s, ls) && Quiet(ls) && Stuck(Final(s, ls))
  }

  lemma MaximalCons(s: State, l: Label, rest: seq<Label>)
    requires Allowed(s, l) && Internal(l) && !l.Drop? && Maximal(Next(s, l), rest)
    ensures Maximal(s, [l] + rest) && Final(s, [l] + rest) == Final(Next(s, l), rest)
  {
    assert ([l] + rest)[1..] == rest;
  }

  lemma {:induction false} SomeMaximalRun(s: State) returns (ls: seq<Label>)
    requires Sound(s)
    ensures Maximal(s, ls)
    decreases Measure(s)
  {
    if Stuck(s) {
      ls := [];
    } else {
      var l :| Internal(l) && Allowed(s, l);
      if l.Drop? {
        l := Act(l.i);
      }
      SoundStep(s, l);
      MeasureDecreases(s, l);
      var rest := SomeMaximalRun(Next(s, l));
      MaximalCons(s, l, rest);
      ls := [l] + rest;
    }
  }

  /** From a sturdy state every schedule lets the call return, and ends at counter 0. */
  lemma IdleReturns(s: State, ls: seq<Label>)
    requires Sound(s) && Sturdy(s) && s.waiter == Checking && Maximal(s, ls)
    ensures Final(s, ls).waiter == Outside && Final(s, ls).counter == 0
    ensures |ls| <= Measure(s)
  {
    SturdyRun(s, ls);
    SoundRun(s, ls);
    SturdyIsSafe(Final(s, ls));
    SafeLosesNone(Final(s, ls));
    StuckShape(Final(s, ls));
    BlockedOnlyByFailure(Final(s, ls));
    RunsAreBounded(s, ls);
  }

  /** The schedule that completes the counted tasks first lets a call return from a safe state. */
  lemma {:induction false} CountedFirst(s: State) returns (ls: seq<Label>)
    requires Sound(s) && Safe(s) && s.waiter == Checking
    ensures Maximal(s, ls) && Final(s, ls).waiter == Outside
    decreases Measure(s)
  {
    var l: Label;
    var rest;
    if i :| 0 <= i < |s.tasks| && s.tasks[i].counted && s.tasks[i].phase.Running? {
      l := Act(i);
      SoundStep(s, l);
      MeasureDecreases(s, l);
      ActLeaves(s, i);
      SafeAct(s, i);
      rest := CountedFirst(Next(s, l));
    } else {
      l := Load(true);
      NothingOwed(s);
      SoundStep(s, l);
      rest := SomeMaximalRun(Next(s, l));
      StaysOutside(Next(s, l), rest);
    }
    MaximalCons(s, l, rest);
    ls := [l] + rest;
  }

  lemma NothingOwed(s: State)
    requires Accounted(s) && Safe(s)
    requires forall i :: 0 <= i < |s.tasks| && s.tasks[i].counted ==> !s.tasks[i].phase.Running?
    ensures s.counter == 0
  {
    forall i | 0 <= i < |s.tasks| ensures Value(Owing, s.tasks[i]) == 0 {
      assert SafeTask(s.tasks[i]);
    }
    SumZero(Owing, s.tasks);
  }

  /** A call that has returned stays so until the next call. */
  lemma {:induction false} StaysOutside(s: State, ls: seq<Label>)
    requires Runs(s, ls) && AllInternal(ls) && s.waiter == Outside
    ensures Final(s, ls).waiter == Outside
    decreases |ls|
  {
    if ls != [] {
      if ls[0].Act? {
        ActLeaves(s, ls[0].i);
      }
      assert forall i :: 0 <= i < |ls[1..]| ==> ls[1..][i] == ls[i + 1];
      StaysOutside(Next(s, ls[0]), ls[1..]);
    }
  }

  /** The schedule that lets every task finish before the waiter looks keeps a call from
      returning wherever some counted task may get lost. */
  lemma {:induction false} TasksFirst(s: State) returns (ls: seq<Label>)
    requires Sound(s) && !Sturdy(s) && s.waiter == Checking
    ensures Maximal(s, ls) && Final(s, ls).waiter != Outside
    decreases Measure(s)
  {
    if i :| 0 <= i < |s.tasks| && s.tasks[i].phase.Running? {
      var l := Act(i);
      SoundStep(s, l);
      MeasureDecreases(s, l);
      ActLeaves(s, i);
      SturdyStep(s, l);
      var rest := TasksFirst(Next(s, l));
      MaximalCons(s, l, rest);
      ls := [l] + rest;
    } else {
      SafeAtEnd(s);
      ls := SomeMaximalRun(s);
      UnsafeForever(s, ls);
    }
  }

  /** Some schedule lets a call return if and only if the state it is made in is safe. */
  lemma ReturnsUnderSomeSchedule(s: State)
    requires Sound(s) && s.waiter == Checking
    ensures (exists ls :: Maximal(s, ls) && Final(s, ls).waiter == Outside) <==> Safe(s)
  {
    if Safe(s) {
      var ls := CountedFirst(s);
      assert Maximal(s, ls);
    } else {
      forall ls | Maximal(s, ls) ensures Final(s, ls).waiter != Outside {
        UnsafeForever(s, ls);
      }
    }
  }

  /** Every schedule lets a call return if and only if the state it is made in is sturdy. */
  lemma ReturnsUnderEverySchedule(s: State)
    requires Sound(s) && s.waiter == Checking
    ensures (forall ls :: Maximal(s, ls) ==> Final(s, ls).waiter == Outside) <==> Sturdy(s)
  {
    if Sturdy(s) {
      forall ls | Maximal(s, ls) ensures Final(s, ls).waiter == Outside {
        IdleReturns(s, ls);
      }
    } else {
      var ls := TasksFirst(s);
      assert Maximal(s, ls);
    }
  }

  // ---------------------------------------------------------------- tasks that fail

  lemma UnsafeIsOwed(s: State)
    requires Accounted(s) && !Safe(s)
    ensures s.counter > 0
  {
    var i :| 0 <= i < |s.tasks| && !SafeTask(s.tasks[i]);
    SumIncludes(Owing, s.tasks, i);
  }

  /** No step of the run is a return of `idle`. */
  predicate NeverReturns(ls: seq<Label>) {
    ls == [] || (ls[0] != Load(true) && NeverReturns(ls[1..]))
  }

  /** A counted task that is lost, or will be, keeps every present and later call of `idle` from
      returning, whatever is spawned, dropped or called afterwards. */
  lemma {:induction false} UnsafeForever(s: State, ls: seq<Label>)
    requires Sound(s) && !Safe(s) && Runs(s, ls)
    ensures !Safe(Final(s, ls)) && NeverReturns(ls)
    ensures s.waiter != Outside ==> Final(s, ls).waiter != Outside
    decreases |ls|
  {
    if ls != [] {
      UnsafeIsOwed(s);
      UnsafeStays(s, ls[0]);
      SoundStep(s, ls[0]);
      if s.waiter != Outside && Next(s, ls[0]).waiter == Outside {
        WaiterMoves(s, ls[0]);
      }
      UnsafeForever(Next(s, ls[0]), ls[1..]);
    }
  }

  predicate LostTask(s: State, i: nat) {
    i < |s.tasks| && s.tasks[i].counted && s.tasks[i].phase.Abandoned?
  }

  lemma LostStays(s: State, i: nat, l: Label)
    requires LostTask(s, i) && Enabled(s, l)
    ensures LostTask(Next(s, l), i)
  {
  }

  /** In particular one abandoned counted task does, and it stays abandoned. */
  lemma {:induction false} AbandonedForever(s: State, ls: seq<Label>, i: nat)
    requires Sound(s) && LostTask(s, i) && Runs(s, ls)
    ensures LostTask(Final(s, ls), i) && NeverReturns(ls)
    decreases |ls|
  {
    assert !SafeTask(s.tasks[i]);
    UnsafeForever(s, ls);
    if ls != [] {
      LostStays(s, i, ls[0]);
      SoundStep(s, ls[0]);
      AbandonedForever(Next(s, ls[0]), ls[1..], i);
    }
  }

  /** A task that fails: its future has been lost, or will panic. */
  predicate Fails(t: Task) {
    match t.phase
    case Running(p) => Panics(p)
    case Abandoned(_) => true
    case _ => false
  }

  /** Whether a future that is not dropped completes is settled when it is spawned. */
  lemma FateIsSettled(s: State, l: Label, i: nat)
    requires i < |s.tasks| && Enabled(s, l) && l != Drop(i)
    ensures Fails(Next(s, l).tasks[i]) == Fails(s.tasks[i])
  {
  }

  /** What a run leaves as it was. */
  lemma {:induction false} RunKeeps(s: State, ls: seq<Label>, i: nat)
    requires Sound(s) && Runs(s, ls) && i < |s.tasks|
    ensures |s.tasks| <= |Final(s, ls).tasks|
    ensures var t, t' := s.tasks[i], Final(s, ls).tasks[i];
            t'.counted == t.counted && t'.path == t.path && t'.body == t.body && t'.reserved == t.reserved
    decreases |ls|
  {
    if ls != [] {
      SoundStep(s, ls[0]);
      GoodStep(s, ls[0]);
      RunKeeps(Next(s, ls[0]), ls[1..], i);
    }
  }

  // ---------------------------------------------------------------- iterations of one call

  function Loads(ls: seq<Label>): nat {
    if ls == [] then 0 else (if ls[0].Load? then 1 else 0) + Loads(ls[1..])
  }

  function Waiting(s: State): nat {
    if s.waiter == Checking then 0 else 1
  }

  /** Between two loads of one call a token is consumed. */
  lemma {:induction false} LoadsConsume(s: State, ls: seq<Label>)
    requires Sound(s) && Runs(s, ls) && forall i :: 0 <= i < |ls| ==> ls[i] != Call
    ensures Loads(ls) + Waiting(s) + s.consumed == Final(s, ls).consumed + Waiting(Final(s, ls))
    decreases |ls|
  {
    if ls != [] {
      SoundStep(s, ls[0]);
      assert forall i :: 0 <= i < |ls[1..]| ==> ls[1..][i] == ls[i + 1];
      OneLoad(s, ls[0]);
      LoadsConsume(Next(s, ls[0]), ls[1..]);
    }
  }

  lemma OneLoad(s: State, l: Label)
    requires Good(s) && Enabled(s, l) && l != Call
    ensures (if l.Load? then 1 else 0) + Waiting(s) + s.consumed == Next(s, l).consumed + Waiting(Next(s, l))
  {
    if l.Act? {
      ActLeaves(s, l.i);
    } else if l.Closed? {
      ChannelStaysOpen(s);
    }
  }

  /** The loop of one `idle` call runs at most once more than there were tokens queued or
      pending when it began and crossings to zero while it ran: stale tokens cost one
      iteration each, and nothing else. */
  lemma LoopIsBounded(s: State, ls: seq<Label>)
    requires Sound(s) && s.waiter == Checking && Runs(s, ls)
    requires forall i :: 0 <= i < |ls| ==> ls[i] != Call
    ensures Loads(ls) <= 1 + s.queue + Sum(Notifying, s.tasks) + Crossings(s, ls)
    ensures Final(s, ls).crossings == s.crossings + Crossings(s, ls) <= Sum(Released, Final(s, ls).tasks)
  {
    SoundRun(s, ls);
    TokensAddUp(s, ls);
    LoadsConsume(s, ls);
  }
}
