/** Every step of the protocol keeps `Good`, whatever the waiter's loads return. */
module Invariants {
  import opened Programs
  import opened Protocol

  lemma EmptyIsGood(s: State)
    requires s.tasks == [] && s.counter == 0 && s.queue == s.consumed == s.crossings == 0 && s.senders == s.handles >= 1
    ensures Good(s)
  {
  }

  lemma FreshIsGood()
    ensures Good(FRESH)
  {
    EmptyIsGood(FRESH);
  }

  /** The four sums of `Accounted` after one task changes. */
  lemma SumsAfterUpdate(ts: seq<Task>, i: nat, t: Task)
    requires i < |ts|
    ensures Sum(Owing, ts[i := t]) + Value(Owing, ts[i]) == Sum(Owing, ts) + Value(Owing, t)
    ensures Sum(Notifying, ts[i := t]) + Value(Notifying, ts[i]) == Sum(Notifying, ts) + Value(Notifying, t)
    ensures Sum(Tracking, ts[i := t]) + Value(Tracking, ts[i]) == Sum(Tracking, ts) + Value(Tracking, t)
    ensures Sum(Released, ts[i := t]) + Value(Released, ts[i]) == Sum(Released, ts) + Value(Released, t)
    ensures Value(Tracking, ts[i]) <= Sum(Tracking, ts)
  {
    SumUpdate(Owing, ts, i, t);
    SumUpdate(Notifying, ts, i, t);
    SumUpdate(Tracking, ts, i, t);
    SumUpdate(Released, ts, i, t);
    SumIncludes(Tracking, ts, i);
  }

  lemma SumsAfterAppend(ts: seq<Task>, t: Task)
    ensures Sum(Owing, ts + [t]) == Sum(Owing, ts) + Value(Owing, t)
    ensures Sum(Notifying, ts + [t]) == Sum(Notifying, ts) + Value(Notifying, t)
    ensures Sum(Tracking, ts + [t]) == Sum(Tracking, ts) + Value(Tracking, t)
    ensures Sum(Released, ts + [t]) == Sum(Released, ts) + Value(Released, t)
  {
    SumAppend(Owing, ts, t);
    SumAppend(Notifying, ts, t);
    SumAppend(Tracking, ts, t);
    SumAppend(Released, ts, t);
  }

  /** A task that weighs something is part of the sum. */
  lemma SumIncludes(w: Weight, ts: seq<Task>, i: nat)
    requires i < |ts|
    ensures Value(w, ts[i]) <= Sum(w, ts)
  {
    SumUpdate(w, ts, i, Uncounted(Return).(phase := Done));
  }

  /** `fetch_sub` never takes the counter below zero. */
  lemma NeverUnderflows(s: State, i: nat)
    requires Accounted(s)
    requires Enabled(s, Act(i)) && s.tasks[i].counted && s.tasks[i].phase.prog.Return?
    ensures s.counter >= 1 && Next(s, Act(i)).counter == s.counter - 1 >= 0
  {
    SumIncludes(Owing, s.tasks, i);
  }

  /** The counter goes from positive to 0. */
  function Crossing(before: int, after: int): nat {
    if before > 0 && after == 0 then 1 else 0
  }

  /** A notification becomes due exactly when a step takes the counter to 0. */
  lemma CrossesIff(s: State, l: Label)
    requires Accounted(s) && Enabled(s, l)
    ensures Next(s, l).crossings == s.crossings + Crossing(s.counter, Next(s, l).counter)
    ensures l.Act? ==> (Next(s, l).tasks[l.i].phase.Sending? <==> Crossing(s.counter, Next(s, l).counter) == 1)
  {
    if l.Act? && s.tasks[l.i].counted && s.tasks[l.i].phase.prog.Return? {
      NeverUnderflows(s, l.i);
    }
  }

  lemma AccountedReserve(s: State, path: Path, body: Prog)
    requires Accounted(s)
    ensures Accounted(Reserve(s, path, body))
  {
    SumsAfterAppend(s.tasks, Task(true, path, body, Running(body), 0, s.clock + 1, 0));
  }

  lemma AccountedUncounted(s: State, body: Prog)
    requires Accounted(s)
    ensures Accounted(s.(tasks := s.tasks + [Uncounted(body)]))
  {
    SumsAfterAppend(s.tasks, Uncounted(body));
  }

  /** A task that goes on running weighs what it weighed. */
  lemma AccountedProgress(s: State, i: nat, t: Task)
    requires Accounted(s) && i < |s.tasks|
    requires s.tasks[i].phase.Running? && t.phase.Running? && t.counted == s.tasks[i].counted
    ensures Accounted(SetTask(s, i, t))
  {
    SumsAfterUpdate(s.tasks, i, t);
  }

  lemma AccountedReturn(s: State, i: nat)
    requires Accounted(s) && Enabled(s, Act(i)) && s.tasks[i].phase.prog.Return?
    ensures Accounted(ActNext(s, i))
  {
    SumsAfterUpdate(s.tasks, i, ActNext(s, i).tasks[i]);
  }

  lemma AccountedAbandon(s: State, i: nat)
    requires Accounted(s) && i < |s.tasks| && s.tasks[i].phase.Running?
    ensures Accounted(Abandon(s, i))
  {
    SumsAfterUpdate(s.tasks, i, Abandon(s, i).tasks[i]);
  }

  lemma AccountedAct(s: State, i: nat)
    requires Accounted(s) && Enabled(s, Act(i))
    ensures Accounted(ActNext(s, i))
  {
    var t := s.tasks[i];
    match t.phase.prog {
      case Return => AccountedReturn(s, i);
      case Work(rest) => AccountedProgress(s, i, t.(phase := Running(rest)));
      case Spawn(child, rest) =>
        if t.counted {
          AccountedProgress(s, i, t.(phase := Running(rest), children := t.children + 1));
          AccountedReserve(SetTask(s, i, t.(phase := Running(rest), children := t.children + 1)), t.path + [t.children], child);
        } else {
          AccountedProgress(s, i, t.(phase := Running(rest)));
          AccountedReserve(SetTask(s, i, t.(phase := Running(rest))), [s.roots], child);
        }
      case SpawnHandle(child, rest) =>
        AccountedProgress(s, i, t.(phase := Running(rest)));
        AccountedUncounted(SetTask(s, i, t.(phase := Running(rest))), child);
      case Panic => AccountedAbandon(s, i);
    }
  }

  lemma AccountedStep(s: State, l: Label)
    requires Accounted(s) && Stamped(s) && Enabled(s, l)
    ensures Accounted(Next(s, l))
  {
    match l {
      case Root(counted, body) =>
        AccountedReserve(s, [s.roots], body);
        AccountedUncounted(s, body);
      case Act(i) => AccountedAct(s, i);
      case Send(i) => SumsAfterUpdate(s.tasks, i, s.tasks[i].(phase := Done));
      case Drop(i) => AccountedAbandon(s, i);
      case _ =>
    }
  }

  lemma StampedAct(s: State, i: nat)
    requires Stamped(s) && Enabled(s, Act(i))
    ensures Stamped(ActNext(s, i))
  {
    assert WellStamped(s.tasks[i], s.clock);
  }

  lemma StampedStep(s: State, l: Label)
    requires Stamped(s) && Enabled(s, l)
    ensures Stamped(Next(s, l))
  {
    if l.Act? {
      StampedAct(s, l.i);
    }
  }

  // ---------------------------------------------------------------- names and nesting

  /** What a step may do to tasks that are already there. */
  ghost predicate Kept(s: State, s': State) {
    && |s.tasks| <= |s'.tasks| <= |s.tasks| + 1
    && s.roots <= s'.roots && s.clock <= s'.clock <= s.clock + 1
    && (|s'.tasks| > |s.tasks| ==> NewTask(s'.tasks[|s.tasks|], s.clock))
    && forall i :: 0 <= i < |s.tasks| ==>
         var t, t' := s.tasks[i], s'.tasks[i];
         && t'.counted == t.counted && t'.path == t.path && t'.body == t.body
         && t'.reserved == t.reserved && t.children <= t'.children
         && (t'.released == t.released || (t.released == 0 && t'.released == s.clock + 1))
  }

  predicate NewTask(t: Task, clock: nat) {
    && t.phase == Running(t.body) && t.children == 0 && t.released == 0
    && (t.counted ==> t.reserved == clock + 1)
  }

  lemma KeptStep(s: State, l: Label)
    requires Stamped(s) && Enabled(s, l)
    ensures Kept(s, Next(s, l))
  {
    if l.Act? {
      assert WellStamped(s.tasks[l.i], s.clock);
    }
  }

  /** The name `q` is new in `ts`, has no task below it, and is covered by the child numbers
      of every task above it. */
  ghost predicate NewName(ts: seq<Task>, q: Path) {
    forall i :: 0 <= i < |ts| && ts[i].counted ==>
      && !(q <= ts[i].path)
      && (ts[i].path < q ==> q[|ts[i].path|] < ts[i].children)
  }

  /** A root takes the next root number, a child the next child number of its parent. */
  ghost predicate Appended(s: State, s': State) {
    var n := |s.tasks|;
    && |s'.tasks| == n + 1
    && s'.tasks[n].counted
    && (|| (s'.tasks[n].path == [s.roots] && s.roots < s'.roots)
        || (exists p :: 0 <= p < n && ChildOf(s.tasks[p], s'.tasks[p], s'.tasks[n])))
  }

  ghost predicate ChildOf(before: Task, after: Task, child: Task) {
    && before.counted && after.children == before.children + 1 && after.released == 0
    && child.path == before.path + [before.children]
  }

  lemma AppendedStep(s: State, l: Label)
    requires Stamped(s) && Enabled(s, l)
    requires |Next(s, l).tasks| > |s.tasks| && Next(s, l).tasks[|s.tasks|].counted
    ensures Appended(s, Next(s, l))
  {
  }

  lemma AppendedIsNew(s: State, s': State)
    requires Named(s) && Kept(s, s') && Appended(s, s')
    ensures NewName(s'.tasks[..|s.tasks|], s'.tasks[|s.tasks|].path)
  {
  }

  lemma NewBelow(s: State, i: nat, j: nat)
    requires Named(s) && i < |s.tasks| && j < |s.tasks| && s.tasks[i].counted && s.tasks[j].counted
    ensures var p, q := s.tasks[i].path, s.tasks[j].path + [s.tasks[j].children];
            && !(q <= p)
            && (p < q && i != j ==> q[|p|] < s.tasks[i].children)
            && (i == j ==> q[|p|] == s.tasks[i].children)
  {
  }

  lemma ChildBelow(base: Path, parent: Path, k: nat)
    ensures base <= parent + [k] <==> base <= parent || base == parent + [k]
  {
  }

  lemma NamedFrom(s: State, s': State)
    requires Named(s) && Kept(s, s')
    requires |s'.tasks| > |s.tasks| && s'.tasks[|s.tasks|].counted ==> Appended(s, s')
    ensures Named(s')
  {
    var n := |s.tasks|;
    if |s'.tasks| > n && s'.tasks[n].counted {
      AppendedIsNew(s, s');
      assert forall i :: 0 <= i < n ==> s'.tasks[..n][i] == s'.tasks[i];
      AppendedUnderRoot(s, s');
    }
    forall i | 0 <= i < |s'.tasks| && s'.tasks[i].counted
      ensures |s'.tasks[i].path| >= 1 && s'.tasks[i].path[0] < s'.roots
    {
    }
    forall i, j | 0 <= i < |s'.tasks| && 0 <= j < |s'.tasks| && s'.tasks[i].counted && s'.tasks[j].counted
      ensures i != j ==> s'.tasks[i].path != s'.tasks[j].path
      ensures s'.tasks[i].path < s'.tasks[j].path ==> s'.tasks[j].path[|s'.tasks[i].path|] < s'.tasks[i].children
    {
    }
  }

  lemma AppendedUnderRoot(s: State, s': State)
    requires Named(s) && Kept(s, s') && Appended(s, s')
    ensures |s'.tasks[|s.tasks|].path| >= 1 && s'.tasks[|s.tasks|].path[0] < s'.roots
  {
  }

  lemma NestedOld(s: State, s': State, i: nat, j: nat)
    requires Stamped(s) && Nested(s) && Kept(s, s') && i < |s.tasks| && j < |s.tasks|
    ensures IsParent(s.tasks[i], s.tasks[j]) <==> IsParent(s'.tasks[i], s'.tasks[j])
    ensures IsParent(s'.tasks[i], s'.tasks[j]) ==>
              && s'.tasks[i].reserved < s'.tasks[j].reserved
              && (s'.tasks[i].released == 0 || s'.tasks[j].reserved < s'.tasks[i].released)
  {
  }

  lemma NestedFrom(s: State, s': State)
    requires Named(s) && Stamped(s) && Nested(s) && Kept(s, s')
    requires |s'.tasks| > |s.tasks| && s'.tasks[|s.tasks|].counted ==> Appended(s, s')
    ensures Nested(s')
  {
    var n := |s.tasks|;
    if |s'.tasks| > n && s'.tasks[n].counted {
      NestedNew(s, s');
    }
    forall i, j | 0 <= i < |s'.tasks| && 0 <= j < |s'.tasks| && IsParent(s'.tasks[i], s'.tasks[j])
      ensures s'.tasks[i].reserved < s'.tasks[j].reserved
      ensures s'.tasks[i].released == 0 || s'.tasks[j].reserved < s'.tasks[i].released
    {
      if i < n && j < n {
        NestedOld(s, s', i, j);
      }
    }
    forall j | 0 <= j < |s'.tasks| && s'.tasks[j].counted && |s'.tasks[j].path| > 1 ensures HasParent(s', j) {
      if j < n {
        assert HasParent(s, j);
        var i :| 0 <= i < n && IsParent(s.tasks[i], s.tasks[j]);
        NestedOld(s, s', i, j);
      }
    }
  }

  lemma NestedNew(s: State, s': State)
    requires Named(s) && Stamped(s) && Kept(s, s') && Appended(s, s')
    ensures |s'.tasks[|s.tasks|].path| > 1 ==> HasParent(s', |s.tasks|)
    ensures forall i :: 0 <= i <= |s.tasks| ==>
              && !IsParent(s'.tasks[|s.tasks|], s'.tasks[i])
              && (IsParent(s'.tasks[i], s'.tasks[|s.tasks|]) ==>
                    s'.tasks[i].reserved < s'.tasks[|s.tasks|].reserved && s'.tasks[i].released == 0)
  {
  }

  // ---------------------------------------------------------------- growth

  /** A step moves tree nodes from a task's remainder to a new task, and loses none. */
  lemma CoveredSame(ts: seq<Task>, ts': seq<Task>, i: nat, base: Path)
    requires i < |ts| <= |ts'| <= |ts| + 1
    requires forall j :: 0 <= j < |ts| && j != i ==> Part(ts'[j], base) == Part(ts[j], base)
    requires Part(ts[i], base) == Part(ts'[i], base) + (if |ts'| > |ts| then Part(ts'[|ts|], base) else {})
    ensures Covered(ts', base) == Covered(ts, base)
  {
  }

  lemma CoveredExtra(ts: seq<Task>, t: Task, base: Path)
    ensures Covered(ts + [t], base) == Covered(ts, base) + Part(t, base)
  {
    forall q ensures q in Covered(ts + [t], base) <==> q in Covered(ts, base) || q in Part(t, base) {
      if q in Covered(ts, base) {
        var j :| 0 <= j < |ts| && q in Part(ts[j], base);
        assert q in Part((ts + [t])[j], base);
      }
      if q in Part(t, base) {
        assert q in Part((ts + [t])[|ts|], base);
      }
    }
  }

  lemma GrownOld(s: State, l: Label, m: nat)
    requires Named(s) && Stamped(s) && Enabled(s, l) && m < |s.tasks| && s.tasks[m].counted
    ensures Covered(Next(s, l).tasks, s.tasks[m].path) == Covered(s.tasks, s.tasks[m].path)
  {
    var s' := Next(s, l);
    var base := s.tasks[m].path;
    match l {
      case Root(counted, _) =>
        assert base[0] < s.roots;
        CoveredExtra(s.tasks, s'.tasks[|s.tasks|], base);
      case Act(i) => GrownAct(s, i, m);
      case Send(i) => CoveredSame(s.tasks, s'.tasks, i, base);
      case Drop(i) => CoveredSame(s.tasks, s'.tasks, i, base);
      case _ =>
    }
  }

  lemma GrownAct(s: State, i: nat, m: nat)
    requires Named(s) && Enabled(s, Act(i)) && m < |s.tasks| && s.tasks[m].counted
    ensures Covered(ActNext(s, i).tasks, s.tasks[m].path) == Covered(s.tasks, s.tasks[m].path)
  {
    PartAct(s, i, m);
    CoveredSame(s.tasks, ActNext(s, i).tasks, i, s.tasks[m].path);
  }

  /** What an acting task accounts for is shared between it and the task it spawns. */
  lemma PartAct(s: State, i: nat, m: nat)
    requires Named(s) && Enabled(s, Act(i)) && m < |s.tasks| && s.tasks[m].counted
    ensures var ts', base := ActNext(s, i).tasks, s.tasks[m].path;
            Part(s.tasks[i], base) == Part(ts'[i], base) + if |ts'| > |s.tasks| then Part(ts'[|s.tasks|], base) else {}
  {
    var t, base := s.tasks[i], s.tasks[m].path;
    assert base[0] < s.roots;
    if t.counted && t.phase.prog.Spawn? {
      NewBelow(s, m, i);
      ChildBelow(base, t.path, t.children);
    }
  }

  lemma GrownNew(s: State, s': State)
    requires Named(s) && Kept(s, s') && Appended(s, s')
    ensures var t := s'.tasks[|s.tasks|]; Covered(s'.tasks, t.path) == Nodes(t.body, t.path, 0)
  {
    var n := |s.tasks|;
    var q := s'.tasks[n].path;
    AppendedIsNew(s, s');
    assert forall j :: 0 <= j < n ==> s'.tasks[..n][j] == s'.tasks[j];
    assert Covered(s'.tasks, q) == Part(s'.tasks[n], q);
  }

  lemma GrownStep(s: State, l: Label)
    requires Named(s) && Stamped(s) && Grown(s) && Enabled(s, l)
    ensures Grown(Next(s, l))
  {
    var s' := Next(s, l);
    KeptStep(s, l);
    forall m | 0 <= m < |s'.tasks| && s'.tasks[m].counted
      ensures Covered(s'.tasks, s'.tasks[m].path) == Nodes(s'.tasks[m].body, s'.tasks[m].path, 0)
    {
      if m < |s.tasks| {
        GrownOld(s, l, m);
      } else {
        AppendedStep(s, l);
        GrownNew(s, s');
      }
    }
  }

  /** The invariant of every run, under any load outcomes. */
  lemma GoodStep(s: State, l: Label)
    requires Good(s) && Enabled(s, l)
    ensures Good(Next(s, l)) && Kept(s, Next(s, l))
  {
    AccountedStep(s, l);
    StampedStep(s, l);
    KeptStep(s, l);
    if |Next(s, l).tasks| > |s.tasks| && Next(s, l).tasks[|s.tasks|].counted {
      AppendedStep(s, l);
    }
    NamedFrom(s, Next(s, l));
    NestedFrom(s, Next(s, l));
    GrownStep(s, l);
  }
}
