/** Which orders of letting go are safe: exactly those in which the background thread outlives the
    pool, the local tasks and the guards, and the cell outlives the pool. */
module DropOrders {
  import opened Teardown
  import opened Lifecycle
  import opened LifecycleProofs

  /** No worker has panicked; workers, guards and local tasks have what they use. */
  ghost predicate Sane(s: State) {
    && (forall i :: 0 <= i < |s.workers| ==> SaneWorker(s, s.workers[i]))
    && (s.guards != {} || s.locals ==> s.background == Active)
  }

  predicate SaneWorker(s: State, w: Worker) {
    !w.Panicked? && (!w.Stopped? ==> s.cell.Alive? && s.background == Active)
  }

  /** When the owner lets go, it is in this order. */
  predicate ClosesBy(ls: seq<Label>, todo: seq<Resource>) {
    forall i :: 0 <= i < |ls| && ls[i].Close? ==> ls[i].todo == todo
  }

  predicate NeverCloses(ls: seq<Label>) {
    forall i :: 0 <= i < |ls| ==> !ls[i].Close?
  }

  predicate AllStopped(ws: seq<Worker>) {
    forall i :: 0 <= i < |ws| ==> ws[i].Stopped?
  }

  lemma GoodIsSane(s: State)
    requires Good(s)
    ensures Sane(s)
  {
    forall i | 0 <= i < |s.workers| ensures SaneWorker(s, s.workers[i]) {
      assert OrderlyWorker(s, s.workers[i]);
    }
  }

  // ---------------------------------------------------------------- what goes wrong otherwise

  /** The owner is about to let go of `todo`, and no worker is at work just then. */
  ghost predicate Poised(s: State, todo: seq<Resource>) {
    && s.stage == Closing(todo) && Complete(s, todo) && AllStopped(s.workers)
    && (s.pool == Serving || s.pool == Dropped) && (s.background == Active || s.background == Joined)
    && (s.owns ==> s.flavour == ThreadPool && s.strong == 1 && s.cell.Alive?)
  }

  /** One step too early, and a worker that starts then finds what it needs gone. */
  lemma EarlyStep(s: State, todo: seq<Resource>) returns (ls: seq<Label>)
    requires Poised(s, todo) && todo != [] && !MayGo(todo[0], todo[1..])
    ensures Runs(s, ls) && NeverCloses(ls) && !Sane(Final(s, ls))
  {
    var rest := todo[1..];
    assert todo == [todo[0]] + rest;
    assert Held(s, todo[0]);
    var s' := Next(s, Main);
    if s.pool == Serving {
      ls := [Main, Start];
      var s'' := Next(s', Start);
      assert ls[1..] == [Start] && [Start][1..] == [];
      assert !SaneWorker(s'', s''.workers[|s.workers|]) by {
        assert todo[0] == CellRef ==> s'.cell == Freed;
      }
    } else {
      ls := [Main];
      assert ls[1..] == [];
      assert !Held(s, Pool) && todo[0] == Background;
      var q :| q in rest && q != CellRef && q != Background;
      assert Held(s, q);
      assert !Sane(s');
    }
  }

  lemma AloneIsOrdered(rest: seq<Resource>)
    requires Distinct(rest) && forall q :: q in rest ==> q == CellRef
    ensures Ordered(rest)
  {
    assert forall k :: 0 < k < |rest| ==> rest[k] in rest[1..];
    assert forall k :: 0 <= k < |rest| ==> rest[k] in rest;
  }

  lemma SafeStep(s: State, todo: seq<Resource>)
    requires Poised(s, todo) && todo != [] && MayGo(todo[0], todo[1..]) && todo[0] != Background
    ensures Enabled(s, Main) && Poised(Next(s, Main), todo[1..])
  {
    assert Held(s, todo[0]);
    CompleteTail(s, Next(s, Main), todo);
  }

  lemma {:induction false} Mishap(s: State, todo: seq<Resource>) returns (ls: seq<Label>)
    requires Poised(s, todo) && !Ordered(todo)
    ensures Runs(s, ls) && NeverCloses(ls) && !Sane(Final(s, ls))
    decreases |todo|
  {
    if !MayGo(todo[0], todo[1..]) {
      ls := EarlyStep(s, todo);
    } else {
      if todo[0] == Background {
        AloneIsOrdered(todo[1..]);
      }
      SafeStep(s, todo);
      var later := Mishap(Next(s, Main), todo[1..]);
      ls := [Main] + later;
      assert ls[1..] == later;
    }
  }

  // ---------------------------------------------------------------- the theorem

  /** Whatever happens, letting go in this order leaves everyone with what they use. */
  ghost predicate IsSafe(s: State, todo: seq<Resource>) {
    forall ls :: Runs(s, ls) && ClosesBy(ls, todo) ==> Sane(Final(s, ls))
  }

  lemma OrderedRunIsSane(s: State, ls: seq<Label>, todo: seq<Resource>)
    requires Good(s) && Runs(s, ls) && ClosesBy(ls, todo) && Ordered(todo)
    ensures Sane(Final(s, ls))
  {
    assert AllOrdered(ls);
    GoodRun(s, ls);
    GoodIsSane(Final(s, ls));
  }

  lemma Unordered(s: State, todo: seq<Resource>) returns (ls: seq<Label>)
    requires Good(s) && s.stage == Ready && AllStopped(s.workers) && Complete(s, todo) && !Ordered(todo)
    ensures Runs(s, ls) && ClosesBy(ls, todo) && !Sane(Final(s, ls))
  {
    var s' := Next(s, Close(todo));
    forall r: Resource ensures r in todo <==> Held(s', r) {
      assert r in todo <==> Held(s, r);
    }
    NoneHold(s);
    var later := Mishap(s', todo);
    ls := [Close(todo)] + later;
    assert ls[1..] == later;
    assert forall i :: 0 < i < |ls| ==> ls[i] == later[i - 1];
  }

  lemma ReadyWork(s: State, i: nat)
    requires Good(s) && s.stage == Ready && i < |s.workers| && !s.workers[i].Stopped?
    ensures Enabled(s, Work(i)) && Good(Next(s, Work(i))) && Next(s, Work(i)).stage == Ready
    ensures WorkersSteps(Next(s, Work(i)).workers) < WorkersSteps(s.workers)
    ensures forall r: Resource :: Held(Next(s, Work(i)), r) <==> Held(s, r)
  {
    assert OrderlyWorker(s, s.workers[i]);
    GoodStep(s, Work(i));
    StepsStep(s, Work(i));
    WorkerOrderly(s, i);
  }

  lemma CompleteFrom(s: State, s': State, todo: seq<Resource>)
    requires Complete(s, todo) && forall r: Resource :: Held(s', r) <==> Held(s, r)
    ensures Complete(s', todo)
  {
  }

  /** The workers that there are come to their end first. */
  lemma {:induction false} UnorderedRun(s: State, todo: seq<Resource>) returns (ls: seq<Label>)
    requires Good(s) && s.stage == Ready && Complete(s, todo) && !Ordered(todo)
    ensures Runs(s, ls) && ClosesBy(ls, todo) && !Sane(Final(s, ls))
    decreases WorkersSteps(s.workers)
  {
    if i :| 0 <= i < |s.workers| && !s.workers[i].Stopped? {
      ReadyWork(s, i);
      CompleteFrom(s, Next(s, Work(i)), todo);
      var later := UnorderedRun(Next(s, Work(i)), todo);
      ls := [Work(i)] + later;
      assert ls[1..] == later;
      assert forall j :: 0 < j < |ls| ==> ls[j] == later[j - 1];
    } else {
      ls := Unordered(s, todo);
    }
  }

  /** For a runtime that is ready, with any workers started, and any list of what its owner holds:
      whatever workers and clients do, letting go in that order leaves every worker, guard and
      local task with what it uses, if and only if the list is ordered. */
  lemma OrderMatters(s: State, todo: seq<Resource>)
    requires Good(s) && s.stage == Ready && Complete(s, todo)
    ensures IsSafe(s, todo) <==> Ordered(todo)
  {
    if Ordered(todo) {
      forall ls | Runs(s, ls) && ClosesBy(ls, todo) ensures Sane(Final(s, ls)) {
        OrderedRunIsSane(s, ls, todo);
      }
    } else {
      var ls := UnorderedRun(s, todo);
    }
  }

  /** The pattern of `shutdown_on_idle` is safe because it binds the background thread first, ... */
  lemma PatternMatters(s: State, first: Resource, second: Resource)
    requires Good(s) && s.stage == Ready && Suits(ShutdownOnIdle, s)
    requires {first, second} == {Pool, Background} && first != second
    ensures IsSafe(s, EndOfShutdown([Holding(first), Holding(second)])) <==> first == Background
  {
    var todo := EndOfShutdown([Holding(first), Holding(second)]);
    PatternDecides(first, second);
    forall r: Resource ensures r in todo <==> Held(s, r) {
      GuardsThenHolds([second, first, CellRef], r);
      TailHolds(second, first, r);
      if r.Guarding? {
        NoOtherGuards(r.guard);
      }
    }
    OrderMatters(s, todo);
  }

  /** ... and dropping the runtime because `Inner` declares it last. */
  lemma FieldsMatter(s: State, first: Resource, second: Resource)
    requires Good(s) && s.stage == Ready && Suits(DropPoolRuntime, s)
    requires {first, second} == {Pool, Background} && first != second
    ensures IsSafe(s, DropValue(Struct([Holding(first), Holding(second)])) + DropValue(PoolRuntime(Gone))) <==> first == Pool
  {
    var todo := DropValue(Struct([Holding(first), Holding(second)])) + DropValue(PoolRuntime(Gone));
    FieldsDecide(first, second);
    forall r: Resource ensures r in todo <==> Held(s, r) {
      TailHolds(first, second, r);
    }
    OrderMatters(s, todo);
  }
}
