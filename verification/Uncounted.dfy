/** Tasks spawned with a `JoinHandle` do not interfere: a runtime behaves, as far as idleness
    goes, like the runtime in which they do not exist. */
module Uncounted {
  import opened Programs
  import opened Protocol
  import opened Interleaving
  import opened Liveness

  /** The program with its handle spawns replaced by steps that do nothing. */
  function Strip(p: Prog): Prog {
    match p
    case Return => Return
    case Work(rest) => Work(Strip(rest))
    case Spawn(child, rest) => Spawn(Strip(child), Strip(rest))
    case SpawnHandle(_, rest) => Work(Strip(rest))
    case Panic => Panic
  }

  function StripTask(t: Task): Task {
    t.(body := Strip(t.body),
       phase := match t.phase
                case Running(p) => Running(Strip(p))
                case Abandoned(p) => Abandoned(Strip(p))
                case other => other)
  }

  /** The counted tasks alone. */
  function Counted(ts: seq<Task>): seq<Task> {
    if ts == [] then [] else
      var last := ts[|ts| - 1];
      Counted(ts[..|ts| - 1]) + if last.counted then [StripTask(last)] else []
  }

  function Erase(s: State): State {
    s.(tasks := Counted(s.tasks))
  }

  /** The index of task `i` among the counted ones. */
  function Rank(ts: seq<Task>, i: nat): nat
    requires i < |ts|
  {
    |Counted(ts[..i])|
  }

  function EraseLabel(s: State, l: Label): seq<Label>
    requires Enabled(s, l)
  {
    match l
    case Root(counted, body) => if counted then [Root(true, Strip(body))] else []
    case Act(i) => if s.tasks[i].counted then [Act(Rank(s.tasks, i))] else []
    case Send(i) => if s.tasks[i].counted then [Send(Rank(s.tasks, i))] else []
    case Drop(i) => if s.tasks[i].counted then [Drop(Rank(s.tasks, i))] else []
    case _ => [l]
  }

  function EraseRun(s: State, ls: seq<Label>): seq<Label>
    requires Runs(s, ls)
    decreases |ls|
  {
    if ls == [] then [] else EraseLabel(s, ls[0]) + EraseRun(Next(s, ls[0]), ls[1..])
  }

  // ---------------------------------------------------------------- filtering

  lemma CountedAppend(ts: seq<Task>, t: Task)
    ensures Counted(ts + [t]) == Counted(ts) + if t.counted then [StripTask(t)] else []
  {
  }

  lemma {:induction false} CountedAt(ts: seq<Task>, i: nat)
    requires i < |ts| && ts[i].counted
    ensures Rank(ts, i) < |Counted(ts)| && Counted(ts)[Rank(ts, i)] == StripTask(ts[i])
  {
    var n := |ts| - 1;
    if i < n {
      assert ts[..n][..i] == ts[..i];
      CountedAt(ts[..n], i);
    }
  }

  lemma {:induction false} CountedUpdate(ts: seq<Task>, i: nat, t: Task)
    requires i < |ts| && t.counted == ts[i].counted
    ensures t.counted ==> Rank(ts, i) < |Counted(ts)| && Counted(ts[i := t]) == Counted(ts)[Rank(ts, i) := StripTask(t)]
    ensures !t.counted ==> Counted(ts[i := t]) == Counted(ts)
  {
    var n := |ts| - 1;
    if i == n {
      assert ts[i := t][..n] == ts[..n];
    } else {
      assert ts[i := t][..n] == ts[..n][i := t];
      assert ts[..n][..i] == ts[..i];
      CountedUpdate(ts[..n], i, t);
    }
  }

  lemma {:induction false} Unrank(ts: seq<Task>, r: nat) returns (i: nat)
    requires r < |Counted(ts)|
    ensures i < |ts| && ts[i].counted && Rank(ts, i) == r
  {
    var n := |ts| - 1;
    if r < |Counted(ts[..n])| {
      i := Unrank(ts[..n], r);
      assert ts[..n][..i] == ts[..i];
    } else {
      i := n;
    }
  }

  // ---------------------------------------------------------------- erasure

  lemma EraseSetTask(s: State, i: nat, t: Task)
    requires i < |s.tasks| && s.tasks[i].counted && t.counted
    ensures Rank(s.tasks, i) < |Counted(s.tasks)| && Counted(s.tasks)[Rank(s.tasks, i)] == StripTask(s.tasks[i])
    ensures Erase(SetTask(s, i, t)) == SetTask(Erase(s), Rank(s.tasks, i), StripTask(t))
  {
    CountedAt(s.tasks, i);
    CountedUpdate(s.tasks, i, t);
  }

  lemma EraseReserve(s: State, path: Path, body: Prog)
    ensures Erase(Reserve(s, path, body)) == Reserve(Erase(s), path, Strip(body))
  {
  }

  lemma EraseHandle(s: State, i: nat)
    requires Enabled(s, Act(i)) && s.tasks[i].counted && s.tasks[i].phase.prog.SpawnHandle?
    ensures var r := Rank(s.tasks, i);
            Enabled(Erase(s), Act(r)) && Erase(ActNext(s, i)) == ActNext(Erase(s), r)
  {
    var t := s.tasks[i];
    var t' := t.(phase := Running(t.phase.prog.rest));
    EraseSetTask(s, i, t');
    CountedAppend(s.tasks[i := t'], Protocol.Uncounted(t.phase.prog.child));
  }

  lemma EraseCountedAct(s: State, i: nat)
    requires Enabled(s, Act(i)) && s.tasks[i].counted
    ensures var r := Rank(s.tasks, i);
            Enabled(Erase(s), Act(r)) && Erase(ActNext(s, i)) == ActNext(Erase(s), r)
  {
    var t := s.tasks[i];
    match t.phase.prog {
      case Spawn(child, rest) =>
        var t' := t.(phase := Running(rest), children := t.children + 1);
        EraseSetTask(s, i, t');
        EraseReserve(SetTask(s, i, t'), t.path + [t.children], child);
      case SpawnHandle(child, rest) => EraseHandle(s, i);
      case _ => EraseSetTask(s, i, ActNext(s, i).tasks[i]);
    }
  }

  lemma EraseUncountedAct(s: State, i: nat)
    requires Harmless(s) && Enabled(s, Act(i)) && !s.tasks[i].counted
    ensures Erase(ActNext(s, i)) == Erase(s)
  {
    assert HarmlessTask(s.tasks[i]);
    var ts' := ActNext(s, i).tasks;
    CountedUpdate(s.tasks, i, ts'[i]);
    if s.tasks[i].phase.prog.SpawnHandle? {
      assert ts' == s.tasks[i := ts'[i]] + [ts'[|s.tasks|]];
      CountedAppend(s.tasks[i := ts'[i]], ts'[|s.tasks|]);
    } else {
      assert ts' == s.tasks[i := ts'[i]];
    }
  }

  lemma EraseSend(s: State, i: nat)
    requires Stamped(s) && Enabled(s, Send(i))
    ensures s.tasks[i].counted && Enabled(Erase(s), Send(Rank(s.tasks, i)))
    ensures Erase(Next(s, Send(i))) == Next(Erase(s), Send(Rank(s.tasks, i)))
  {
    assert WellStamped(s.tasks[i], s.clock);
    CountedUpdate(s.tasks, i, s.tasks[i].(phase := Done));
    CountedAt(s.tasks, i);
  }

  lemma EraseDrop(s: State, i: nat)
    requires Enabled(s, Drop(i))
    ensures s.tasks[i].counted ==>
              Enabled(Erase(s), Drop(Rank(s.tasks, i))) && Erase(Next(s, Drop(i))) == Next(Erase(s), Drop(Rank(s.tasks, i)))
    ensures !s.tasks[i].counted ==> Erase(Next(s, Drop(i))) == Erase(s)
  {
    CountedUpdate(s.tasks, i, Abandon(s, i).tasks[i]);
    if s.tasks[i].counted {
      CountedAt(s.tasks, i);
    }
  }

  lemma EraseStep(s: State, l: Label)
    requires Good(s) && Harmless(s) && HarmlessLabel(l) && Allowed(s, l)
    ensures EraseLabel(s, l) == [] ==> Erase(Next(s, l)) == Erase(s)
    ensures EraseLabel(s, l) != [] ==>
              Allowed(Erase(s), EraseLabel(s, l)[0]) && Erase(Next(s, l)) == Next(Erase(s), EraseLabel(s, l)[0])
  {
    match l {
      case Root(counted, body) =>
        if counted {
          EraseReserve(s, [s.roots], body);
        } else {
          CountedAppend(s.tasks, Protocol.Uncounted(body));
        }
      case Act(i) =>
        if s.tasks[i].counted {
          EraseCountedAct(s, i);
        } else {
          EraseUncountedAct(s, i);
        }
      case Send(i) => EraseSend(s, i);
      case Drop(i) => EraseDrop(s, i);
      case _ =>
    }
  }

  /** What idleness is about. */
  datatype View = View(counter: int, queue: nat, waiter: Waiter)

  function Observe(s: State): View {
    View(s.counter, s.queue, s.waiter)
  }

  /** The successive distinct observations of a run. */
  function Trace(s: State, ls: seq<Label>): seq<View>
    requires Runs(s, ls)
    decreases |ls|
  {
    if ls == [] then [] else
      var s' := Next(s, ls[0]);
      (if Observe(s') == Observe(s) then [] else [Observe(s')]) + Trace(s', ls[1..])
  }

  /** One erased or kept step, put in front of an erased run. */
  lemma EraseFirst(s: State, ls: seq<Label>)
    requires ls != [] && Runs(s, ls)
    requires var e := EraseLabel(s, ls[0]); var s' := Next(s, ls[0]);
             if e == [] then Erase(s') == Erase(s) else Allowed(Erase(s), e[0]) && Erase(s') == Next(Erase(s), e[0])
    requires var s' := Next(s, ls[0]); Runs(Erase(s'), EraseRun(s', ls[1..]))
    ensures Runs(Erase(s), EraseRun(s, ls))
    ensures Final(Erase(s), EraseRun(s, ls)) == Final(Erase(Next(s, ls[0])), EraseRun(Next(s, ls[0]), ls[1..]))
    ensures Trace(Erase(s), EraseRun(s, ls)) ==
              (if Observe(Next(s, ls[0])) == Observe(s) then [] else [Observe(Next(s, ls[0]))])
              + Trace(Erase(Next(s, ls[0])), EraseRun(Next(s, ls[0]), ls[1..]))
  {
    var rest := EraseRun(Next(s, ls[0]), ls[1..]);
    if EraseLabel(s, ls[0]) == [] {
      assert EraseRun(s, ls) == rest;
      assert Observe(Erase(s)) == Observe(s) && Observe(Erase(Next(s, ls[0]))) == Observe(Next(s, ls[0]));
    } else {
      assert EraseRun(s, ls)[0] == EraseLabel(s, ls[0])[0] && EraseRun(s, ls)[1..] == rest;
    }
  }

  /** Erasing every step of the uncounted tasks from a run leaves a run of the runtime without
      them, with the same trace of counter, queue and waiter. */
  lemma {:induction false} EraseKeepsTrace(s: State, ls: seq<Label>)
    requires Sound(s) && Harmless(s) && Runs(s, ls)
    requires forall i :: 0 <= i < |ls| ==> HarmlessLabel(ls[i])
    ensures Runs(Erase(s), EraseRun(s, ls))
    ensures Final(Erase(s), EraseRun(s, ls)) == Erase(Final(s, ls))
    ensures Trace(Erase(s), EraseRun(s, ls)) == Trace(s, ls)
    decreases |ls|
  {
    if ls != [] {
      SoundStep(s, ls[0]);
      HarmlessStep(s, ls[0]);
      EraseStep(s, ls[0]);
      assert forall i :: 0 <= i < |ls[1..]| ==> ls[1..][i] == ls[i + 1];
      EraseKeepsTrace(Next(s, ls[0]), ls[1..]);
      EraseFirst(s, ls);
    }
  }

  /** What the erased runtime can do: its roots are counted, and spawn nothing uncounted. */
  predicate Erased(l: Label) {
    l.Root? ==> l.counted && Strip(l.body) == l.body
  }

  predicate StandsFor(l': Label, l: Label) {
    HarmlessLabel(l') && (Internal(l) ==> Internal(l'))
  }

  lemma {:induction false} StrippedIsSeparated(p: Prog)
    requires Strip(p) == p
    ensures Separated(p)
  {
    match p
    case Work(rest) => StrippedIsSeparated(rest);
    case Spawn(child, rest) =>
      StrippedIsSeparated(child);
      StrippedIsSeparated(rest);
    case _ =>
  }

  /** The step with uncounted tasks present that a step of the erased runtime stands for. */
  lemma RestoreStep(s: State, l: Label) returns (l': Label)
    requires Sound(s) && Harmless(s) && Erased(l) && Allowed(Erase(s), l)
    ensures Allowed(s, l') && EraseLabel(s, l') == [l] && StandsFor(l', l)
    ensures Erase(Next(s, l')) == Next(Erase(s), l) && Harmless(Next(s, l')) && Sound(Next(s, l'))
  {
    l' := l;
    if l.Act? || l.Send? || l.Drop? {
      var i := Unrank(s.tasks, l.i);
      CountedAt(s.tasks, i);
      l' := if l.Act? then Act(i) else if l.Send? then Send(i) else Drop(i);
    } else if l.Root? {
      StrippedIsSeparated(l.body);
    }
    HarmlessStep(s, l');
    EraseStep(s, l');
    SoundStep(s, l');
  }

  lemma EraseCons(s: State, l: Label, ls: seq<Label>)
    requires Allowed(s, l) && Runs(Next(s, l), ls)
    ensures Runs(s, [l] + ls) && EraseRun(s, [l] + ls) == EraseLabel(s, l) + EraseRun(Next(s, l), ls)
  {
  }

  /** And the other way: what the runtime without uncounted tasks can do, new roots, calls and
      clones included, it can do with them. */
  lemma {:induction false} RestoreRun(s: State, ls: seq<Label>) returns (ls': seq<Label>)
    requires Sound(s) && Harmless(s) && Runs(Erase(s), ls) && forall i :: 0 <= i < |ls| ==> Erased(ls[i])
    ensures Runs(s, ls') && EraseRun(s, ls') == ls
    ensures |ls'| == |ls| && forall i :: 0 <= i < |ls| ==> StandsFor(ls'[i], ls[i])
    decreases |ls|
  {
    if ls == [] {
      ls' := [];
    } else {
      var l := RestoreStep(s, ls[0]);
      assert forall i :: 0 <= i < |ls[1..]| ==> ls[1..][i] == ls[i + 1];
      var rest := RestoreRun(Next(s, l), ls[1..]);
      ls' := [l] + rest;
      EraseCons(s, l, rest);
      assert ls == [ls[0]] + ls[1..];
    }
  }
}
