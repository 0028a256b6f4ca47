/** Safety, wake-up and termination of `idle` in the weak-memory model, for every choice of orderings
    that the property needs; and the relation of the two models. */
module MemoryRuns {
  import opened Programs
  import opened Protocol
  import opened Invariants
  import opened Completion
  import I = Interleaving
  import L = Liveness
  import opened WeakMemory
  import opened MemoryInvariants

  predicate Runs(o: Orders, m: Memory, vs: seq<Move>)
    requires Sized(m)
    decreases |vs|
  {
    vs == [] || (Possible(m, vs[0]) && Runs(o, MemoryNext(o, m, vs[0]), vs[1..]))
  }

  function Last(o: Orders, m: Memory, vs: seq<Move>): (m': Memory)
    requires Sized(m) && Runs(o, m, vs)
    ensures Sized(m')
    decreases |vs|
  {
    if vs == [] then m else Last(o, MemoryNext(o, m, vs[0]), vs[1..])
  }

  lemma {:induction false} CoherentRun(o: Orders, m: Memory, vs: seq<Move>)
    requires Coherent(o, m) && Runs(o, m, vs)
    ensures Coherent(o, Last(o, m, vs))
    decreases |vs|
  {
    if vs != [] {
      CoherentMove(o, m, vs[0]);
      CoherentRun(o, MemoryNext(o, m, vs[0]), vs[1..]);
    }
  }

  // ---------------------------------------------------------------- safety

  /** What a task wrote before its release is published at every later position. */
  lemma ReleasePublishes(o: Orders, m: Memory, j: nat, p: nat)
    requires Coherent(o, m) && Releases(o.sub) && p < |m.hist|
    requires j < |m.core.tasks| && ReleasedBy(m.core.tasks[j], p)
    ensures Sees(m, j, Published(m.hist, p))
  {
    var d := m.core.tasks[j].released;
    assert CarriedBy(o, m, j);
    assert Heads(m.hist, d, p);
    forall n | 0 <= n < m.wrote[j] ensures Write(j, n) in Published(m.hist, p) {
      assert Write(j, n) in m.hist[d].view.seen;
    }
  }

  /** When `idle` reads 0 at position p, every counted task reserved at or before p has
      completed by p with its whole counted tree, and all that these tasks wrote is in the
      waiter's view. What the waiter reserved itself, or learned was reserved, lies before p. */
  lemma ReturnPublishes(o: Orders, m: Memory, p: nat, i: nat)
    requires Coherent(o, m) && Releases(o.sub) && Acquires(o.load)
    requires Possible(m, LoadAt(p)) && m.hist[p].val == 0
    requires i < |m.core.tasks| && m.core.tasks[i].counted && m.core.tasks[i].reserved <= p
    ensures m.client.pos <= p && TreeDone(m.core, i, p)
    ensures forall j :: 0 <= j < |m.core.tasks| && m.core.tasks[j].counted && m.core.tasks[i].path <= m.core.tasks[j].path ==>
              ReleasedBy(m.core.tasks[j], p) && Sees(m, j, MemoryNext(o, m, LoadAt(p)).client.seen)
  {
    TreesDone(m.core, p, i);
    forall j | 0 <= j < |m.core.tasks| && m.core.tasks[j].counted && m.core.tasks[i].path <= m.core.tasks[j].path
      ensures ReleasedBy(m.core.tasks[j], p) && Sees(m, j, MemoryNext(o, m, LoadAt(p)).client.seen)
    {
      Hereditary(m.core, p, i, j);
      ReleasePublishes(o, m, j, p);
    }
  }

  // ---------------------------------------------------------------- wake-ups

  /** No lost wake-up: whatever stale entry the waiter read, if it is blocked and the newest
      entry is 0 then that crossing's token is queued or its sender is about to send. */
  lemma StaleWaiterIsWoken(o: Orders, m: Memory)
    requires Coherent(o, m) && m.core.waiter == Receiving && m.core.counter == 0
    ensures TokenDue(m) && m.core.queue + Sum(Notifying, m.core.tasks) > 0
  {
    NewestValue(m);
    assert m.core.clock > 0;
    if i :| 0 <= i < |m.core.tasks| && m.core.tasks[i].phase.Sending? && m.core.tasks[i].released == m.core.clock {
      SumIncludes(Notifying, m.core.tasks, i);
    }
  }

  // ---------------------------------------------------------------- termination

  predicate Internal(v: Move) {
    match v
    case Step(l) => I.Internal(l)
    case LoadAt(_) => true
    case Sync(_, _) => true
    case Spawned(_, _, _) => false
  }

  predicate AllInternal(vs: seq<Move>) {
    forall i :: 0 <= i < |vs| ==> Internal(vs[i])
  }

  /** The steps of a run that are not mere synchronization. */
  function Steps(vs: seq<Move>): nat {
    if vs == [] then 0 else (if vs[0].Sync? then 0 else 1) + Steps(vs[1..])
  }

  lemma MoveIsBounded(o: Orders, m: Memory, v: Move)
    requires Sized(m) && Good(m.core) && Possible(m, v) && Internal(v)
    ensures (if v.Sync? then 0 else 1) + I.Measure(MemoryNext(o, m, v).core) <= I.Measure(m.core)
  {
    if !v.Sync? {
      I.MeasureDecreases(m.core, CoreStep(m, v));
    }
  }

  /** Under every schedule and every choice of stale loads, a run takes boundedly many steps. */
  lemma {:induction false} RunsAreBounded(o: Orders, m: Memory, vs: seq<Move>)
    requires Coherent(o, m) && Runs(o, m, vs) && AllInternal(vs)
    ensures Steps(vs) + I.Measure(Last(o, m, vs).core) <= I.Measure(m.core)
    decreases |vs|
  {
    if vs != [] {
      CoherentMove(o, m, vs[0]);
      MoveIsBounded(o, m, vs[0]);
      assert forall i :: 0 <= i < |vs[1..]| ==> vs[1..][i] == vs[i + 1];
      RunsAreBounded(o, MemoryNext(o, m, vs[0]), vs[1..]);
    }
  }

  ghost predicate Stuck(m: Memory) {
    forall v :: Internal(v) && Possible(m, v) ==> v.Sync?
  }

  lemma StepsCarryOver(m: Memory)
    ensures forall l: Label :: I.Internal(l) && I.Allowed(m.core, l) && !l.Load? ==> Internal(Step(l)) && Possible(m, Step(l))
  {
  }

  lemma StuckShape(o: Orders, m: Memory)
    requires Coherent(o, m) && Stuck(m)
    ensures m.core.waiter != Checking && Sum(Notifying, m.core.tasks) == 0 && m.core.counter == Sum(Lost, m.core.tasks)
    ensures m.core.waiter == Receiving ==> m.core.queue == 0 && Sum(Lost, m.core.tasks) > 0
  {
    assert m.core.waiter == Checking ==> Possible(m, LoadAt(m.client.pos));
    StepsCarryOver(m);
    assert I.Stuck(m.core);
    I.StuckShape(m.core);
    if m.core.waiter == Receiving && m.core.counter == 0 {
      StaleWaiterIsWoken(o, m);
    }
  }

  // ---------------------------------------------------------------- trees the waiter knows of

  /** The waiter knows the reserve of every root: it spawned them itself, or synchronized with who did. */
  ghost predicate Rooted(m: Memory) {
    forall i :: 0 <= i < |m.core.tasks| && m.core.tasks[i].counted && |m.core.tasks[i].path| == 1 ==>
      m.core.tasks[i].reserved <= m.client.pos
  }

  lemma {:induction false} RootOf(s: State, j: nat) returns (i: nat)
    requires Named(s) && Nested(s) && j < |s.tasks| && s.tasks[j].counted
    ensures i < |s.tasks| && s.tasks[i].counted && |s.tasks[i].path| == 1 && s.tasks[i].path <= s.tasks[j].path
    decreases |s.tasks[j].path|
  {
    if |s.tasks[j].path| == 1 {
      i := j;
    } else {
      var m := ParentOf(s, j);
      i := RootOf(s, m);
    }
  }

  /** A waiter that knows the roots cannot be deceived by a stale 0: the newest entry is 0 as well. */
  lemma RootedReturnIsCurrent(o: Orders, m: Memory, p: nat)
    requires Coherent(o, m) && Rooted(m) && Possible(m, LoadAt(p)) && m.hist[p].val == 0
    ensures m.core.counter == 0
  {
    forall j | 0 <= j < |m.core.tasks| ensures Value(Owing, m.core.tasks[j]) == 0 {
      if m.core.tasks[j].counted {
        var i := RootOf(m.core, j);
        Hereditary(m.core, p, i, j);
        assert WellStamped(m.core.tasks[j], m.core.clock);
      }
    }
    SumZero(Owing, m.core.tasks);
  }

  /** What the waiter knows of the counter never gets older. */
  lemma ClientNeverForgets(o: Orders, m: Memory, v: Move)
    requires Sized(m) && m.client.pos < |m.hist| && Possible(m, v)
    ensures m.client.pos <= MemoryNext(o, m, v).client.pos
  {
  }

  // ---------------------------------------------------------------- iterations of one call

  function Loads(vs: seq<Move>): nat {
    if vs == [] then 0 else (if vs[0].LoadAt? then 1 else 0) + Loads(vs[1..])
  }

  /** Between two loads of one call a token is consumed, stale loads or not. */
  lemma {:induction false} LoadsConsume(o: Orders, m: Memory, vs: seq<Move>)
    requires Coherent(o, m) && Runs(o, m, vs) && forall i :: 0 <= i < |vs| ==> vs[i] != Step(Call)
    ensures Loads(vs) + L.Waiting(m.core) + m.core.consumed ==
              Last(o, m, vs).core.consumed + L.Waiting(Last(o, m, vs).core)
    decreases |vs|
  {
    if vs != [] {
      CoherentMove(o, m, vs[0]);
      assert forall i :: 0 <= i < |vs[1..]| ==> vs[1..][i] == vs[i + 1];
      if !vs[0].Sync? {
        L.OneLoad(m.core, CoreStep(m, vs[0]));
      }
      LoadsConsume(o, MemoryNext(o, m, vs[0]), vs[1..]);
    }
  }

  /** How many entries from `from` on are 0: the transitions that the history has recorded. */
  function Zeros(hist: seq<Entry>, from: nat): nat
    requires from <= |hist|
    decreases |hist| - from
  {
    if from == |hist| then 0 else (if hist[from].val == 0 then 1 else 0) + Zeros(hist, from + 1)
  }

  lemma {:induction false} ZerosSuffix(a: seq<Entry>, b: seq<Entry>, from: nat, mid: nat)
    requires from <= mid <= |a| && a <= b
    ensures Zeros(b, from) == Zeros(a[..mid], from) + Zeros(b, mid)
    decreases mid - from
  {
    if from < mid {
      ZerosSuffix(a, b, from + 1, mid);
    }
  }

  /** A read-modify-write that crosses to 0 is an entry 0, and there are no others. */
  lemma CrossingIsEntry(o: Orders, m: Memory, v: Move)
    requires Coherent(o, m) && Possible(m, v)
    ensures var m' := MemoryNext(o, m, v);
            m'.core.crossings == m.core.crossings + Zeros(m'.hist, |m.hist|)
  {
    var m' := MemoryNext(o, m, v);
    CoherentMove(o, m, v);
    NewestValue(m');
    if !v.Sync? {
      CrossesIff(m.core, CoreStep(m, v));
      EntryIsStep(m.core, CoreStep(m, v));
      KeptStep(m.core, CoreStep(m, v));
    }
  }

  /** The counter changes with the clock, and only then. */
  lemma EntryIsStep(s: State, l: Label)
    requires Accounted(s) && Enabled(s, l)
    ensures Next(s, l).clock == s.clock ==> Next(s, l).counter == s.counter
    ensures Next(s, l).clock == s.clock + 1 ==> Next(s, l).counter == s.counter + 1 || Next(s, l).counter == s.counter - 1 >= 0
  {
    if l.Act? && s.tasks[l.i].counted && s.tasks[l.i].phase.prog.Return? {
      NeverUnderflows(s, l.i);
    }
  }

  /** The crossings of a run are the entries 0 that it adds to the history. */
  lemma {:induction false} CrossingsAreZeros(o: Orders, m: Memory, vs: seq<Move>)
    requires Coherent(o, m) && Runs(o, m, vs)
    ensures m.hist <= Last(o, m, vs).hist
    ensures Last(o, m, vs).core.crossings == m.core.crossings + Zeros(Last(o, m, vs).hist, |m.hist|)
    decreases |vs|
  {
    if vs != [] {
      var m', h := MemoryNext(o, m, vs[0]), Last(o, m, vs).hist;
      CoherentMove(o, m, vs[0]);
      CrossingIsEntry(o, m, vs[0]);
      CrossingsAreZeros(o, m', vs[1..]);
      ZerosSuffix(m'.hist, h, |m.hist|, |m'.hist|);
      assert m'.hist[..|m'.hist|] == m'.hist;
    }
  }

  /** However stale its loads, one call of `idle` loads at most once more than there were tokens
      queued or pending when it began and crossings to zero while it ran. */
  lemma LoopIsBounded(o: Orders, m: Memory, vs: seq<Move>)
    requires Coherent(o, m) && m.core.waiter == Checking && Runs(o, m, vs)
    requires forall i :: 0 <= i < |vs| ==> vs[i] != Step(Call)
    ensures |m.hist| <= |Last(o, m, vs).hist|
    ensures Loads(vs) <= 1 + m.core.queue + Sum(Notifying, m.core.tasks) + Zeros(Last(o, m, vs).hist, |m.hist|)
  {
    CoherentRun(o, m, vs);
    LoadsConsume(o, m, vs);
    CrossingsAreZeros(o, m, vs);
  }

  // ---------------------------------------------------------------- coherence of the waiter's loads

  /** The positions that the loads of a run return, in order. */
  function Reads(vs: seq<Move>): seq<nat> {
    if vs == [] then [] else (if vs[0].LoadAt? then [vs[0].p] else []) + Reads(vs[1..])
  }

  predicate Ascending(ps: seq<nat>, from: nat) {
    ps == [] || (from <= ps[0] && Ascending(ps[1..], ps[0]))
  }

  lemma AscendingFrom(ps: seq<nat>, from: nat, less: nat)
    requires Ascending(ps, from) && less <= from
    ensures Ascending(ps, less)
  {
  }

  lemma AscendingCons(p: nat, ps: seq<nat>, from: nat, less: nat)
    requires Ascending(ps, from) && less <= p <= from
    ensures Ascending([p] + ps, less)
  {
    AscendingFrom(ps, from, p);
    assert ([p] + ps)[1..] == ps;
  }

  /** What a load returned, the waiter knows from then on. */
  lemma LoadIsKnown(o: Orders, m: Memory, v: Move)
    requires Sized(m) && m.client.pos < |m.hist| && Possible(m, v)
    ensures m.client.pos <= MemoryNext(o, m, v).client.pos
    ensures v.LoadAt? ==> m.client.pos <= v.p <= MemoryNext(o, m, v).client.pos
  {
    ClientNeverForgets(o, m, v);
  }

  lemma ClientIsCurrent(o: Orders, m: Memory)
    requires Coherent(o, m)
    ensures Sized(m) && m.client.pos < |m.hist|
  {
  }

  /** No load returns an entry older than one that an earlier load returned, or than what the
      waiter knew before. */
  lemma {:induction false} ReadsAscend(o: Orders, m: Memory, vs: seq<Move>)
    requires Coherent(o, m) && Runs(o, m, vs)
    ensures Ascending(Reads(vs), m.client.pos)
    decreases |vs|
  {
    if vs != [] {
      CoherentMove(o, m, vs[0]);
      ReadsAscend(o, MemoryNext(o, m, vs[0]), vs[1..]);
      ClientIsCurrent(o, m);
      LoadIsKnown(o, m, vs[0]);
      ReadsCons(vs, m.client.pos, MemoryNext(o, m, vs[0]).client.pos);
    }
  }

  lemma ReadsCons(vs: seq<Move>, before: nat, after: nat)
    requires vs != [] && before <= after && Ascending(Reads(vs[1..]), after)
    requires vs[0].LoadAt? ==> before <= vs[0].p <= after
    ensures Ascending(Reads(vs), before)
  {
    if vs[0].LoadAt? {
      AscendingCons(vs[0].p, Reads(vs[1..]), after, before);
    } else {
      AscendingFrom(Reads(vs[1..]), after, before);
      assert Reads(vs) == Reads(vs[1..]);
    }
  }

  // ---------------------------------------------------------------- the two models

  /** The move of the weak-memory model that does what the interleaving model does. */
  function Lifted(m: Memory, l: Label): Move
    requires Sized(m)
  {
    match l
    case Root(counted, body) => Spawned(true, counted, body)
    case Load(_) => LoadAt(|m.hist| - 1)
    case _ => Step(l)
  }

  lemma LiftStep(o: Orders, m: Memory, l: Label)
    requires Coherent(o, m) && I.Allowed(m.core, l)
    ensures Possible(m, Lifted(m, l)) && CoreStep(m, Lifted(m, l)) == l
  {
    NewestValue(m);
  }

  predicate Mirrors(v: Move, l: Label) {
    v == Step(l) || (v.Spawned? && l.Root?) || (v.LoadAt? && l.Load?)
  }

  /** Every interleaving run is a weak-memory run in which each load returns the newest entry. */
  lemma {:induction false} Lift(o: Orders, m: Memory, ls: seq<Label>) returns (vs: seq<Move>)
    requires Coherent(o, m) && I.Runs(m.core, ls)
    ensures Runs(o, m, vs) && Last(o, m, vs).core == I.Final(m.core, ls)
    ensures |vs| == |ls| && forall i :: 0 <= i < |ls| ==> Mirrors(vs[i], ls[i])
    decreases |ls|
  {
    if ls == [] {
      vs := [];
    } else {
      var v := Lifted(m, ls[0]);
      LiftStep(o, m, ls[0]);
      CoherentMove(o, m, v);
      var rest := Lift(o, MemoryNext(o, m, v), ls[1..]);
      vs := [v] + rest;
      assert vs[1..] == rest;
    }
  }

  /** Every load of the run returns the newest entry. */
  predicate ReadsNewest(o: Orders, m: Memory, vs: seq<Move>)
    requires Sized(m) && Runs(o, m, vs)
    decreases |vs|
  {
    vs == [] ||
    ((vs[0].LoadAt? ==> vs[0].p == |m.hist| - 1) && ReadsNewest(o, MemoryNext(o, m, vs[0]), vs[1..]))
  }

  lemma ProjectStep(o: Orders, m: Memory, v: Move)
    requires Coherent(o, m) && Possible(m, v) && !v.Sync? && (v.LoadAt? ==> v.p == |m.hist| - 1)
    ensures I.Allowed(m.core, CoreStep(m, v))
  {
    NewestValue(m);
  }

  /** And conversely: without stale loads, weak memory shows nothing but interleavings. */
  lemma {:induction false} Project(o: Orders, m: Memory, vs: seq<Move>) returns (ls: seq<Label>)
    requires Coherent(o, m) && Runs(o, m, vs) && ReadsNewest(o, m, vs)
    ensures I.Runs(m.core, ls) && I.Final(m.core, ls) == Last(o, m, vs).core
    decreases |vs|
  {
    if vs == [] {
      ls := [];
    } else {
      CoherentMove(o, m, vs[0]);
      var m' := MemoryNext(o, m, vs[0]);
      var rest := Project(o, m', vs[1..]);
      if vs[0].Sync? {
        ls := rest;
      } else {
        ProjectStep(o, m, vs[0]);
        ls := [CoreStep(m, vs[0])] + rest;
        assert ls[1..] == rest;
      }
    }
  }
}
