/** What it means that the counter read 0 at some position of its modification order:
    every tree rooted at or before that position is complete. */
module Completion {
  import opened Programs
  import opened Protocol
  import opened Invariants

  predicate ReleasedBy(t: Task, p: nat) {
    t.counted && 0 < t.released <= p
  }

  /** Names of the tasks strictly below `base` that have completed by position `p`. */
  function DoneBelow(ts: seq<Task>, base: Path, p: nat): set<Path> {
    set i | 0 <= i < |ts| && ReleasedBy(ts[i], p) && base < ts[i].path :: ts[i].path
  }

  /** Task `i` and its whole counted tree have completed by position `p`. */
  ghost predicate TreeDone(s: State, i: nat, p: nat)
    requires i < |s.tasks|
  {
    && ReleasedBy(s.tasks[i], p)
    && DoneBelow(s.tasks, s.tasks[i].path, p) == Nodes(s.tasks[i].body, s.tasks[i].path, 0)
  }

  /** At the newest position, what is pending is what the counter counts. */
  lemma PendingNow(s: State)
    requires Stamped(s)
    ensures Sum(PendingAt(s.clock), s.tasks) == Sum(Owing, s.tasks)
  {
    forall i | 0 <= i < |s.tasks| ensures Value(PendingAt(s.clock), s.tasks[i]) == Value(Owing, s.tasks[i]) {
      assert WellStamped(s.tasks[i], s.clock);
    }
    SumPointwise(PendingAt(s.clock), s.tasks, Owing, s.tasks, |s.tasks|);
  }

  lemma NothingPending(s: State, p: nat, i: nat)
    requires Sum(PendingAt(p), s.tasks) == 0 && i < |s.tasks|
    ensures s.tasks[i].counted && s.tasks[i].reserved <= p ==> ReleasedBy(s.tasks[i], p)
  {
    SumZero(PendingAt(p), s.tasks);
    assert Value(PendingAt(p), s.tasks[i]) == 0;
  }

  lemma ParentOf(s: State, j: nat) returns (m: nat)
    requires Nested(s) && j < |s.tasks| && s.tasks[j].counted && |s.tasks[j].path| > 1
    ensures m < |s.tasks| && s.tasks[m].counted && s.tasks[m].path == s.tasks[j].path[..|s.tasks[j].path| - 1]
    ensures s.tasks[m].released == 0 || s.tasks[j].reserved < s.tasks[m].released
  {
    assert HasParent(s, j);
    m :| 0 <= m < |s.tasks| && IsParent(s.tasks[m], s.tasks[j]);
  }

  /** Induction on ancestry: a child is reserved before its parent is released. */
  lemma {:induction false} ReleasedBelow(s: State, p: nat, i: nat, j: nat)
    requires Nested(s) && Sum(PendingAt(p), s.tasks) == 0
    requires i < |s.tasks| && s.tasks[i].counted && |s.tasks[i].path| >= 1 && s.tasks[i].reserved <= p
    requires j < |s.tasks| && s.tasks[j].counted && s.tasks[i].path <= s.tasks[j].path
    requires s.tasks[i].path == s.tasks[j].path ==> i == j
    requires forall m :: 0 <= m < |s.tasks| && s.tasks[m].counted && s.tasks[m].path == s.tasks[i].path ==> m == i
    ensures ReleasedBy(s.tasks[j], p)
    decreases |s.tasks[j].path|
  {
    if i != j {
      var m := ParentOf(s, j);
      assert s.tasks[i].path <= s.tasks[m].path;
      ReleasedBelow(s, p, i, m);
    }
    NothingPending(s, p, j);
  }

  /** Along counted parents, a reserve seen before position `p` brings every descendant's
      reserve, and so its release, before `p` as well. */
  lemma Hereditary(s: State, p: nat, i: nat, j: nat)
    requires Stamped(s) && Named(s) && Nested(s) && Sum(PendingAt(p), s.tasks) == 0
    requires i < |s.tasks| && s.tasks[i].counted && s.tasks[i].reserved <= p
    requires j < |s.tasks| && s.tasks[j].counted && s.tasks[i].path <= s.tasks[j].path
    ensures s.tasks[j].reserved < s.tasks[j].released <= p
  {
    ReleasedBelow(s, p, i, j);
    assert WellStamped(s.tasks[j], s.clock);
  }

  /** A released task leaves nothing of its tree unspawned. */
  lemma ReleasedPart(s: State, base: Path, j: nat, p: nat)
    requires Stamped(s) && j < |s.tasks| && ReleasedBy(s.tasks[j], p)
    ensures Part(s.tasks[j], base) == if base < s.tasks[j].path then {s.tasks[j].path} else {}
  {
  }

  /** Completion is hereditary: a counter value 0 at position `p` means that the whole tree of
      every task reserved by then is complete, and has exactly the nodes its program names. */
  lemma TreesDone(s: State, p: nat, i: nat)
    requires Good(s) && Sum(PendingAt(p), s.tasks) == 0
    requires i < |s.tasks| && s.tasks[i].counted && s.tasks[i].reserved <= p
    ensures TreeDone(s, i, p)
  {
    var base := s.tasks[i].path;
    forall j | 0 <= j < |s.tasks| && s.tasks[j].counted && base <= s.tasks[j].path
      ensures ReleasedBy(s.tasks[j], p) && Part(s.tasks[j], base) == if base < s.tasks[j].path then {s.tasks[j].path} else {}
    {
      Hereditary(s, p, i, j);
      ReleasedPart(s, base, j, p);
    }
    CoveredIsDone(s.tasks, base, p);
  }

  lemma CoveredIsDone(ts: seq<Task>, base: Path, p: nat)
    requires forall j :: 0 <= j < |ts| && ts[j].counted && base <= ts[j].path ==>
               ReleasedBy(ts[j], p) && Part(ts[j], base) == if base < ts[j].path then {ts[j].path} else {}
    ensures DoneBelow(ts, base, p) == Covered(ts, base)
  {
  }
}
