/** The sequentially consistent reading of the protocol: the waiter's load returns the counter. */
module Interleaving {
  import opened Programs
  import opened Protocol
  import opened Invariants
  import opened Completion

  predicate Allowed(s: State, l: Label) {
    Enabled(s, l) && (l.Load? ==> l.zero == (s.counter == 0))
  }

  predicate Runs(s: State, ls: seq<Label>)
    decreases |ls|
  {
    ls == [] || (Allowed(s, ls[0]) && Runs(Next(s, ls[0]), ls[1..]))
  }

  function Final(s: State, ls: seq<Label>): State
    requires Runs(s, ls)
    decreases |ls|
  {
    if ls == [] then s else Final(Next(s, ls[0]), ls[1..])
  }

  lemma {:induction false} RunsConcat(s: State, ls: seq<Label>, more: seq<Label>)
    requires Runs(s, ls) && Runs(Final(s, ls), more)
    ensures Runs(s, ls + more) && Final(s, ls + more) == Final(Final(s, ls), more)
    decreases |ls|
  {
    if ls == [] {
      assert ls + more == more;
    } else {
      assert (ls + more)[1..] == ls[1..] + more;
      RunsConcat(Next(s, ls[0]), ls[1..], more);
    }
  }

  // ---------------------------------------------------------------- lost wake-ups

  /** A waiter blocked on an idle runtime has a token on its way. */
  ghost predicate Awake(s: State) {
    s.waiter == Receiving && s.counter == 0 ==> s.queue + Sum(Notifying, s.tasks) > 0
  }

  ghost predicate Sound(s: State) {
    Good(s) && Awake(s)
  }

  lemma AwakeAct(s: State, i: nat)
    requires Good(s) && Awake(s) && Allowed(s, Act(i))
    ensures Awake(Next(s, Act(i)))
  {
    var s' := Next(s, Act(i));
    SumsAfterUpdate(s.tasks, i, s'.tasks[i]);
    if |s'.tasks| > |s.tasks| {
      assert s'.tasks == s.tasks[i := s'.tasks[i]] + [s'.tasks[|s.tasks|]];
      SumsAfterAppend(s.tasks[i := s'.tasks[i]], s'.tasks[|s.tasks|]);
    }
  }

  lemma SoundStep(s: State, l: Label)
    requires Sound(s) && Allowed(s, l)
    ensures Sound(Next(s, l))
  {
    GoodStep(s, l);
    match l {
      case Root(_, body) =>
        SumsAfterAppend(s.tasks, Uncounted(body));
      case Act(i) => AwakeAct(s, i);
      case Drop(i) => SumsAfterUpdate(s.tasks, i, Next(s, l).tasks[i]);
      case _ =>
    }
  }

  /** In every reachable state the accounts balance and no wake-up is lost. */
  lemma {:induction false} SoundRun(s: State, ls: seq<Label>)
    requires Sound(s) && Runs(s, ls)
    ensures Sound(Final(s, ls))
    decreases |ls|
  {
    if ls != [] {
      SoundStep(s, ls[0]);
      SoundRun(Next(s, ls[0]), ls[1..]);
    }
  }

  lemma FreshIsSound()
    ensures Sound(FRESH)
  {
    FreshIsGood();
  }

  lemma Reachable(ls: seq<Label>)
    requires Runs(FRESH, ls)
    ensures Sound(Final(FRESH, ls))
  {
    FreshIsSound();
    SoundRun(FRESH, ls);
  }

  // ---------------------------------------------------------------- tokens and transitions

  /** How often the counter goes to 0 in a run. */
  function Crossings(s: State, ls: seq<Label>): nat
    requires Runs(s, ls)
    decreases |ls|
  {
    if ls == [] then 0 else
      Crossing(s.counter, Next(s, ls[0]).counter) + Crossings(Next(s, ls[0]), ls[1..])
  }

  datatype Sort = Sends | Receives | Clones | Forgets

  predicate IsOf(k: Sort, l: Label) {
    match k
    case Sends => l.Send?
    case Receives => l.Recv?
    case Clones => l.Clone?
    case Forgets => l.Forget?
  }

  function Times(k: Sort, ls: seq<Label>): nat {
    if ls == [] then 0 else (if IsOf(k, ls[0]) then 1 else 0) + Times(k, ls[1..])
  }

  /** Tokens are what was sent and not received; handles what was cloned and not dropped; and a
      token is sent, or about to be, once for each time the counter goes to 0, and never else. */
  lemma {:induction false} TokensAddUp(s: State, ls: seq<Label>)
    requires Sound(s) && Runs(s, ls)
    ensures Final(s, ls).queue == s.queue + Times(Sends, ls) - Times(Receives, ls)
    ensures Final(s, ls).consumed == s.consumed + Times(Receives, ls)
    ensures Final(s, ls).handles == s.handles + Times(Clones, ls) - Times(Forgets, ls)
    ensures Final(s, ls).crossings == s.crossings + Crossings(s, ls)
    ensures Times(Sends, ls) + Sum(Notifying, Final(s, ls).tasks) == Sum(Notifying, s.tasks) + Crossings(s, ls)
    decreases |ls|
  {
    if ls != [] {
      SoundStep(s, ls[0]);
      CrossesIff(s, ls[0]);
      TokensMove(s, ls[0]);
      TokensAddUp(Next(s, ls[0]), ls[1..]);
    }
  }

  lemma TokensMove(s: State, l: Label)
    requires Enabled(s, l)
    ensures Next(s, l).queue == s.queue + (if l.Send? then 1 else 0) - (if l.Recv? then 1 else 0)
    ensures Next(s, l).consumed == s.consumed + if l.Recv? then 1 else 0
    ensures Next(s, l).handles == s.handles + (if l.Clone? then 1 else 0) - (if l.Forget? then 1 else 0)
  {
  }

  // ---------------------------------------------------------------- what a return means

  /** `idle` returns only when nothing is running, about to run or abandoned: every counted
      task has completed, with its whole counted tree. */
  lemma ReturnMeansComplete(s: State)
    requires Good(s) && Allowed(s, Load(true))
    ensures forall i :: 0 <= i < |s.tasks| && s.tasks[i].counted ==>
              TreeDone(s, i, s.clock) && !s.tasks[i].phase.Running? && !s.tasks[i].phase.Abandoned?
  {
    ZeroMeansComplete(s);
  }

  lemma ZeroMeansComplete(s: State)
    requires Good(s) && s.counter == 0
    ensures forall i :: 0 <= i < |s.tasks| && s.tasks[i].counted ==>
              TreeDone(s, i, s.clock) && !s.tasks[i].phase.Running? && !s.tasks[i].phase.Abandoned?
  {
    PendingNow(s);
    forall i | 0 <= i < |s.tasks| && s.tasks[i].counted
      ensures TreeDone(s, i, s.clock) && !s.tasks[i].phase.Running? && !s.tasks[i].phase.Abandoned?
    {
      assert WellStamped(s.tasks[i], s.clock);
      TreesDone(s, s.clock, i);
    }
  }

  lemma ZeroMeansNoneLost(s: State)
    requires Good(s) && s.counter == 0
    ensures Sum(Lost, s.tasks) == 0
  {
    SumZero(Owing, s.tasks);
    forall i | 0 <= i < |s.tasks| ensures Value(Lost, s.tasks[i]) == 0 {
      assert Value(Owing, s.tasks[i]) == 0;
    }
    SumZero(Lost, s.tasks);
  }

  /** No premature zero: while a node of some counted tree has not completed, the counter is
      positive; and it is 0 exactly when every counted task has decremented. */
  lemma PositiveUntilComplete(s: State)
    requires Good(s)
    ensures s.counter >= 0
    ensures s.counter == 0 <==> forall i :: 0 <= i < |s.tasks| && s.tasks[i].counted ==> TreeDone(s, i, s.clock)
  {
    if s.counter == 0 {
      ZeroMeansComplete(s);
    } else if forall i :: 0 <= i < |s.tasks| && s.tasks[i].counted ==> TreeDone(s, i, s.clock) {
      forall i | 0 <= i < |s.tasks| ensures Value(Owing, s.tasks[i]) == 0 {
        assert WellStamped(s.tasks[i], s.clock);
      }
      SumZero(Owing, s.tasks);
    }
  }

  /** The runtime's own `Idle` keeps the channel open, so `recv` cannot report its closure. */
  lemma ChannelStaysOpen(s: State)
    requires Good(s)
    ensures s.senders >= 1 && !Enabled(s, Closed)
  {
  }

  // ---------------------------------------------------------------- termination

  /** Steps of a runtime that gets no new roots: its tasks, their failures, and the waiter inside `idle`. */
  predicate Internal(l: Label) {
    l.Act? || l.Send? || l.Drop? || l.Load? || l.Recv? || l.Closed?
  }

  function Measure(s: State): nat {
    Sum(Cost, s.tasks) + 2 * s.queue + (if s.waiter == Checking then 1 else 0)
  }

  lemma CostAct(s: State, i: nat)
    requires Enabled(s, Act(i))
    ensures Sum(Cost, ActNext(s, i).tasks) < Sum(Cost, s.tasks)
  {
    var t, ts' := s.tasks[i], ActNext(s, i).tasks;
    SumUpdate(Cost, s.tasks, i, ts'[i]);
    if t.phase.prog.Spawn? || t.phase.prog.SpawnHandle? {
      var u := ts'[|s.tasks|];
      assert ts' == s.tasks[i := ts'[i]] + [u];
      SumAppend(Cost, s.tasks[i := ts'[i]], u);
      assert Value(Cost, ts'[i]) + Value(Cost, u) < Value(Cost, t);
    } else {
      assert ts' == s.tasks[i := ts'[i]];
    }
  }

  /** Every internal step uses up measure, whatever the load returns. */
  lemma MeasureDecreases(s: State, l: Label)
    requires Good(s) && Enabled(s, l) && Internal(l)
    ensures Measure(Next(s, l)) < Measure(s)
  {
    if l.Act? {
      CostAct(s, l.i);
      ActLeaves(s, l.i);
    } else if l.Send? {
      SumUpdate(Cost, s.tasks, l.i, s.tasks[l.i].(phase := Done));
    } else if l.Drop? {
      CostAbandon(s, l.i);
    }
  }

  lemma CostAbandon(s: State, i: nat)
    requires i < |s.tasks| && s.tasks[i].phase.Running?
    ensures Sum(Cost, Abandon(s, i).tasks) < Sum(Cost, s.tasks)
  {
    SumUpdate(Cost, s.tasks, i, Abandon(s, i).tasks[i]);
    StepsPositive(s.tasks[i].phase.prog, s.tasks[i].counted);
  }

  lemma StepsPositive(p: Prog, counted: bool)
    ensures Steps(p, counted) >= 1
  {
  }

  lemma ActLeaves(s: State, i: nat)
    requires Enabled(s, Act(i))
    ensures ActNext(s, i).queue == s.queue && ActNext(s, i).waiter == s.waiter && ActNext(s, i).consumed == s.consumed
  {
  }

  predicate AllInternal(ls: seq<Label>) {
    forall i :: 0 <= i < |ls| ==> Internal(ls[i])
  }

  /** Under every schedule a run of internal steps is finite: no fairness is needed. */
  lemma {:induction false} RunsAreBounded(s: State, ls: seq<Label>)
    requires Sound(s) && Runs(s, ls) && AllInternal(ls)
    ensures |ls| + Measure(Final(s, ls)) <= Measure(s)
    decreases |ls|
  {
    if ls != [] {
      SoundStep(s, ls[0]);
      MeasureDecreases(s, ls[0]);
      assert forall i :: 0 <= i < |ls[1..]| ==> ls[1..][i] == ls[i + 1];
      RunsAreBounded(Next(s, ls[0]), ls[1..]);
    }
  }

  /** Nothing but a failure can happen any more. */
  ghost predicate Stuck(s: State) {
    forall l :: Internal(l) && Allowed(s, l) ==> false
  }

  lemma StuckShape(s: State)
    requires Good(s) && Stuck(s)
    ensures s.waiter != Checking && Sum(Notifying, s.tasks) == 0 && (s.waiter == Receiving ==> s.queue == 0)
    ensures s.counter == Sum(Lost, s.tasks)
  {
    assert s.waiter == Checking ==> Allowed(s, Load(s.counter == 0));
    assert s.waiter == Receiving && s.queue > 0 ==> Allowed(s, Recv);
    forall i | 0 <= i < |s.tasks|
      ensures Value(Notifying, s.tasks[i]) == 0 && Value(Owing, s.tasks[i]) == Value(Lost, s.tasks[i])
    {
      assert !Allowed(s, Act(i)) && !Allowed(s, Send(i));
    }
    SumZero(Notifying, s.tasks);
    SumPointwise(Owing, s.tasks, Lost, s.tasks, |s.tasks|);
  }

  /** A waiter that can never move again waits for a track that was abandoned. */
  lemma BlockedOnlyByFailure(s: State)
    requires Sound(s) && Stuck(s)
    ensures s.waiter == Receiving ==> Sum(Lost, s.tasks) > 0
  {
    StuckShape(s);
  }
}
