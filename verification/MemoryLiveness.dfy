/** When `idle` returns under weak memory, told from the memory it is called in: a stale 0 makes
    the only difference, and only to a waiter that does not know every root. */
module MemoryLiveness {
  import opened Programs
  import opened Protocol
  import opened Invariants
  import opened Completion
  import I = Interleaving
  import L = Liveness
  import opened WeakMemory
  import opened MemoryInvariants
  import opened MemoryRuns

  // ---------------------------------------------------------------- zeros that can be read

  /** The waiter may read a 0: an entry no older than what it knows, current or stale. */
  ghost predicate ZeroAhead(m: Memory) {
    exists p :: m.client.pos <= p < |m.hist| && m.hist[p].val == 0
  }

  /** Some task is lost or bound to be, and the waiter cannot read a 0. */
  ghost predicate Barred(m: Memory) {
    !L.Safe(m.core) && !ZeroAhead(m)
  }

  lemma BarredFrom(m: Memory, m': Memory)
    requires !ZeroAhead(m) && m.client.pos <= m'.client.pos
    requires m.hist <= m'.hist && |m'.hist| <= |m.hist| + 1
    requires |m'.hist| > |m.hist| ==> m'.hist[|m.hist|].val != 0
    ensures !ZeroAhead(m')
  {
    forall p | m'.client.pos <= p < |m'.hist| ensures m'.hist[p].val != 0 {
      assert p < |m.hist| ==> m'.hist[p] == m.hist[p];
    }
  }

  lemma HistoryGrows(o: Orders, m: Memory, v: Move)
    requires Sized(m) && Stamped(m.core) && Possible(m, v)
    ensures |MemoryNext(o, m, v).hist| <= |m.hist| + 1
  {
    if !v.Sync? {
      KeptStep(m.core, CoreStep(m, v));
    }
  }

  lemma BarredMove(o: Orders, m: Memory, v: Move)
    requires Coherent(o, m) && Barred(m) && Possible(m, v) && Coherent(o, MemoryNext(o, m, v))
    ensures Barred(MemoryNext(o, m, v))
  {
    if !v.Sync? {
      L.UnsafeStays(m.core, CoreStep(m, v));
    }
    NoZeroComes(o, m, v);
  }

  lemma NoZeroComes(o: Orders, m: Memory, v: Move)
    requires Sized(m) && Stamped(m.core) && m.client.pos < |m.hist| && !ZeroAhead(m) && Possible(m, v)
    requires Coherent(o, MemoryNext(o, m, v)) && !L.Safe(CoreNext(m, v))
    ensures !ZeroAhead(MemoryNext(o, m, v))
  {
    NewestIsPositive(o, MemoryNext(o, m, v));
    ClientNeverForgets(o, m, v);
    HistoryGrows(o, m, v);
    BarredFrom(m, MemoryNext(o, m, v));
  }

  lemma BarredWaits(m: Memory, v: Move)
    requires !ZeroAhead(m) && Possible(m, v) && m.core.waiter != Outside
    ensures CoreNext(m, v).waiter != Outside
  {
    if CoreNext(m, v).waiter == Outside {
      L.WaiterMoves(m.core, CoreStep(m, v));
    }
  }

  lemma NewestIsPositive(o: Orders, m: Memory)
    requires Coherent(o, m) && !L.Safe(m.core)
    ensures m.hist[|m.hist| - 1].val > 0
  {
    L.UnsafeIsOwed(m.core);
    NewestValue(m);
  }

  /** Barred once, no call returns ever after, whatever is read, spawned or dropped. */
  lemma {:induction false} UnsafeForever(o: Orders, m: Memory, vs: seq<Move>)
    requires Coherent(o, m) && Barred(m) && Runs(o, m, vs)
    ensures Barred(Last(o, m, vs)) && (m.core.waiter != Outside ==> Last(o, m, vs).core.waiter != Outside)
    decreases |vs|
  {
    if vs != [] {
      CoherentMove(o, m, vs[0]);
      BarredMove(o, m, vs[0]);
      if m.core.waiter != Outside {
        BarredWaits(m, vs[0]);
      }
      UnsafeForever(o, MemoryNext(o, m, vs[0]), vs[1..]);
    }
  }

  /** One root that the waiter knows of is enough: below it, a lost task keeps every 0 away. */
  lemma KnownRootBars(o: Orders, m: Memory, i: nat, j: nat)
    requires Coherent(o, m) && i < |m.core.tasks| && j < |m.core.tasks| && m.core.tasks[i].counted
    requires m.core.tasks[i].reserved <= m.client.pos && m.core.tasks[i].path <= m.core.tasks[j].path
    requires !L.SafeTask(m.core.tasks[j])
    ensures Barred(m)
  {
    assert WellStamped(m.core.tasks[j], m.core.clock);
    forall p | m.client.pos <= p < |m.hist| ensures m.hist[p].val != 0 {
      if m.hist[p].val == 0 {
        Hereditary(m.core, p, i, j);
      }
    }
  }

  /** A waiter that knows every root reads no 0 while a task is lost or bound to be. */
  lemma RootedIsBarred(o: Orders, m: Memory)
    requires Coherent(o, m) && Rooted(m) && !L.Safe(m.core)
    ensures Barred(m)
  {
    var j :| 0 <= j < |m.core.tasks| && !L.SafeTask(m.core.tasks[j]);
    var i := RootOf(m.core, j);
    KnownRootBars(o, m, i, j);
  }

  // ---------------------------------------------------------------- one run

  /** Some counted task is dropped in the run. */
  predicate DropsCounted(o: Orders, m: Memory, vs: seq<Move>)
    requires Sized(m) && Runs(o, m, vs)
    decreases |vs|
  {
    vs != [] &&
    ((vs[0].Step? && vs[0].l.Drop? && m.core.tasks[vs[0].l.i].counted) || DropsCounted(o, MemoryNext(o, m, vs[0]), vs[1..]))
  }

  lemma {:induction false} SafeRunIff(o: Orders, m: Memory, vs: seq<Move>)
    requires Sized(m) && L.Harmless(m.core) && Runs(o, m, vs) && AllInternal(vs)
    ensures L.Safe(Last(o, m, vs).core) <==> L.Safe(m.core) && !DropsCounted(o, m, vs)
    decreases |vs|
  {
    if vs != [] {
      var v := vs[0];
      assert AllInternal(vs[1..]);
      if v.Sync? {
        SafeRunIff(o, MemoryNext(o, m, v), vs[1..]);
      } else {
        var l := CoreStep(m, v);
        L.HarmlessStep(m.core, l);
        SafeRunIff(o, MemoryNext(o, m, v), vs[1..]);
        if !L.Safe(m.core) {
          L.UnsafeStays(m.core, l);
        } else if l.Drop? && m.core.tasks[l.i].counted {
          L.LosesCounted(m.core, l);
        } else {
          L.SafeStays(m.core, l);
        }
      }
    }
  }

  lemma StuckEnd(o: Orders, m: Memory)
    requires Coherent(o, m) && Stuck(m)
    ensures L.Safe(m.core) <==> Sum(Lost, m.core.tasks) == 0
    ensures L.Sturdy(m.core) <==> L.Safe(m.core)
    ensures m.core.waiter != Checking && m.core.counter == Sum(Lost, m.core.tasks)
    ensures m.core.waiter == Receiving ==> Sum(Lost, m.core.tasks) > 0
  {
    StuckShape(o, m);
    StepsCarryOver(m);
    forall i | 0 <= i < |m.core.tasks| ensures !m.core.tasks[i].phase.Running? {
      assert !I.Allowed(m.core, Act(i));
    }
    L.SafeAtEnd(m.core);
  }

  lemma {:induction false} ZeroIsStable(o: Orders, m: Memory, vs: seq<Move>)
    requires Coherent(o, m) && L.Harmless(m.core) && Runs(o, m, vs) && AllInternal(vs) && m.core.counter == 0
    ensures Last(o, m, vs).core.counter == 0
    decreases |vs|
  {
    if vs != [] {
      CoherentMove(o, m, vs[0]);
      assert AllInternal(vs[1..]);
      if !vs[0].Sync? {
        L.HarmlessStep(m.core, CoreStep(m, vs[0]));
        L.ZeroStaysZero(m.core, CoreStep(m, vs[0]));
      }
      ZeroIsStable(o, MemoryNext(o, m, vs[0]), vs[1..]);
    }
  }

  /** The run reads a 0 that was in the history `h`. */
  predicate ReadsOldZero(vs: seq<Move>, h: seq<Entry>)
    decreases |vs|
  {
    vs != [] && ((vs[0].LoadAt? && vs[0].p < |h| && h[vs[0].p].val == 0) || ReadsOldZero(vs[1..], h))
  }

  lemma ZeroOrStays(m: Memory, v: Move)
    requires Possible(m, v) && Internal(v)
    requires m.core.waiter == Outside || (v.LoadAt? && m.hist[v.p].val == 0)
    ensures CoreNext(m, v).waiter == Outside
  {
    if v.Step? && v.l.Act? {
      I.ActLeaves(m.core, v.l.i);
    }
  }

  lemma {:induction false} OldZeroReturns(o: Orders, m: Memory, vs: seq<Move>, h: seq<Entry>)
    requires Coherent(o, m) && Runs(o, m, vs) && AllInternal(vs) && h <= m.hist
    requires ReadsOldZero(vs, h) || m.core.waiter == Outside
    ensures Last(o, m, vs).core.waiter == Outside
    decreases |vs|
  {
    if vs != [] {
      CoherentMove(o, m, vs[0]);
      assert AllInternal(vs[1..]);
      if m.core.waiter == Outside || (vs[0].LoadAt? && m.hist[vs[0].p].val == 0) {
        ZeroOrStays(m, vs[0]);
      }
      OldZeroReturns(o, MemoryNext(o, m, vs[0]), vs[1..], h);
    }
  }

  ghost predicate NoNewZero(m: Memory, h: seq<Entry>) {
    h <= m.hist && forall p :: |h| <= p < |m.hist| ==> m.hist[p].val != 0
  }

  lemma NoNewZeroFrom(m: Memory, m': Memory, h: seq<Entry>)
    requires NoNewZero(m, h) && m.hist <= m'.hist && |m'.hist| <= |m.hist| + 1
    requires |m'.hist| > |m.hist| ==> m'.hist[|m.hist|].val != 0
    ensures NoNewZero(m', h)
  {
    forall p | |h| <= p < |m'.hist| ensures m'.hist[p].val != 0 {
      assert p < |m.hist| ==> m'.hist[p] == m.hist[p];
    }
  }

  /** A counter that is positive in the end has been so all along, and every new entry with it. */
  lemma NoNewZeroMove(o: Orders, m: Memory, v: Move, vs: seq<Move>, h: seq<Entry>)
    requires Coherent(o, m) && Possible(m, v) && NoNewZero(m, h)
    requires Coherent(o, MemoryNext(o, m, v)) && L.Harmless(CoreNext(m, v))
    requires Runs(o, MemoryNext(o, m, v), vs) && AllInternal(vs) && Last(o, MemoryNext(o, m, v), vs).core.counter != 0
    ensures NoNewZero(MemoryNext(o, m, v), h)
  {
    var m' := MemoryNext(o, m, v);
    if m'.core.counter == 0 {
      ZeroIsStable(o, m', vs);
    }
    NewestValue(m');
    HistoryGrows(o, m, v);
    NoNewZeroFrom(m, m', h);
  }

  lemma ReturnsByZero(m: Memory, v: Move)
    requires Possible(m, v) && m.core.waiter != Outside && CoreNext(m, v).waiter == Outside
    ensures v.LoadAt? && m.hist[v.p].val == 0
  {
    L.WaiterMoves(m.core, CoreStep(m, v));
  }

  /** While the counter stays positive, a call that returns has read a 0 that was there before. */
  lemma {:induction false} ReturnReadOldZero(o: Orders, m: Memory, vs: seq<Move>, h: seq<Entry>)
    requires Coherent(o, m) && L.Harmless(m.core) && Runs(o, m, vs) && AllInternal(vs) && NoNewZero(m, h)
    requires m.core.waiter != Outside && Last(o, m, vs).core.waiter == Outside && Last(o, m, vs).core.counter != 0
    ensures ReadsOldZero(vs, h)
    decreases |vs|
  {
    if CoreNext(m, vs[0]).waiter == Outside {
      ReturnsByZero(m, vs[0]);
    } else {
      CoherentMove(o, m, vs[0]);
      assert AllInternal(vs[1..]);
      if !vs[0].Sync? {
        L.HarmlessStep(m.core, CoreStep(m, vs[0]));
      }
      NoNewZeroMove(o, m, vs[0], vs[1..], h);
      ReturnReadOldZero(o, MemoryNext(o, m, vs[0]), vs[1..], h);
    }
  }

  /** In a runtime without new roots, every run of a call that can take no more step has returned
      if and only if the call was made in a safe state and no counted task was dropped meanwhile,
      or it reads a 0 that was there when it began; for every choice of orderings. */
  lemma IdleReturnsIff(o: Orders, m: Memory, vs: seq<Move>)
    requires Coherent(o, m) && L.Harmless(m.core) && m.core.waiter == Checking
    requires Runs(o, m, vs) && AllInternal(vs) && Stuck(Last(o, m, vs))
    ensures Last(o, m, vs).core.waiter == Outside <==>
            (L.Safe(m.core) && !DropsCounted(o, m, vs)) || ReadsOldZero(vs, m.hist)
  {
    CoherentRun(o, m, vs);
    StuckEnd(o, Last(o, m, vs));
    SafeRunIff(o, m, vs);
    if ReadsOldZero(vs, m.hist) {
      OldZeroReturns(o, m, vs, m.hist);
    } else if Last(o, m, vs).core.waiter == Outside && Last(o, m, vs).core.counter != 0 {
      ReturnReadOldZero(o, m, vs, m.hist);
    }
  }

  lemma {:induction false} NothingToRead(o: Orders, m: Memory, vs: seq<Move>, h: seq<Entry>, from: nat)
    requires Coherent(o, m) && Runs(o, m, vs) && h <= m.hist && from <= m.client.pos
    requires forall p :: from <= p < |h| ==> h[p].val != 0
    ensures !ReadsOldZero(vs, h)
    decreases |vs|
  {
    if vs != [] {
      CoherentMove(o, m, vs[0]);
      ClientNeverForgets(o, m, vs[0]);
      NothingToRead(o, MemoryNext(o, m, vs[0]), vs[1..], h, from);
    }
  }

  lemma ZeroMeansSafe(s: State)
    requires Accounted(s) && s.counter == 0
    ensures L.Safe(s)
  {
    if !L.Safe(s) {
      L.UnsafeIsOwed(s);
    }
  }

  /** So weak memory changes nothing for a waiter that knows every root, or has no 0 ahead. */
  lemma RootedReturnsIff(o: Orders, m: Memory, vs: seq<Move>)
    requires Coherent(o, m) && L.Harmless(m.core) && m.core.waiter == Checking && (Rooted(m) || !ZeroAhead(m))
    requires Runs(o, m, vs) && AllInternal(vs) && Stuck(Last(o, m, vs))
    ensures Last(o, m, vs).core.waiter == Outside <==> L.Safe(m.core) && !DropsCounted(o, m, vs)
  {
    IdleReturnsIff(o, m, vs);
    if ZeroAhead(m) {
      var p :| m.client.pos <= p < |m.hist| && m.hist[p].val == 0;
      RootedReturnIsCurrent(o, m, p);
      ZeroIsStable(o, m, vs);
      CoherentRun(o, m, vs);
      ZeroMeansSafe(Last(o, m, vs).core);
      SafeRunIff(o, m, vs);
    } else {
      NothingToRead(o, m, vs, m.hist, m.client.pos);
    }
  }

  // ---------------------------------------------------------------- every schedule

  predicate Quiet(vs: seq<Move>) {
    forall i :: 0 <= i < |vs| ==> Internal(vs[i]) && !(vs[i].Step? && vs[i].l.Drop?)
  }

  lemma {:induction false} SturdyRun(o: Orders, m: Memory, vs: seq<Move>)
    requires Sized(m) && Runs(o, m, vs) && Quiet(vs)
    ensures L.Sturdy(Last(o, m, vs).core) <==> L.Sturdy(m.core)
    decreases |vs|
  {
    if vs != [] {
      assert forall i :: 0 <= i < |vs[1..]| ==> vs[1..][i] == vs[i + 1];
      SturdyRun(o, MemoryNext(o, m, vs[0]), vs[1..]);
      if !vs[0].Sync? {
        L.SturdyStep(m.core, CoreStep(m, vs[0]));
      }
    }
  }

  /** One call of `idle`, run as far as it goes. */
  ghost predicate Maximal(o: Orders, m: Memory, vs: seq<Move>) {
    Sized(m) && Runs(o, m, vs) && Quiet(vs) && Stuck(Last(o, m, vs))
  }

  /** Stale loads or not, every schedule lets a call return if and only if the state it is made
      in is sturdy; no root need be known to the waiter for that. */
  lemma ReturnsUnderEverySchedule(o: Orders, m: Memory)
    requires Coherent(o, m) && m.core.waiter == Checking
    ensures (forall vs :: Maximal(o, m, vs) ==> Last(o, m, vs).core.waiter == Outside) <==> L.Sturdy(m.core)
  {
    if L.Sturdy(m.core) {
      forall vs | Maximal(o, m, vs) ensures Last(o, m, vs).core.waiter == Outside {
        CoherentRun(o, m, vs);
        SturdyRun(o, m, vs);
        StuckEnd(o, Last(o, m, vs));
      }
    } else {
      CheckingIsSound(o, m);
      var ls := L.TasksFirst(m.core);
      var vs := MaximalLift(o, m, ls);
    }
  }

  lemma CheckingIsSound(o: Orders, m: Memory)
    requires Coherent(o, m) && m.core.waiter == Checking
    ensures I.Sound(m.core)
  {
  }

  lemma StuckLifts(o: Orders, m: Memory)
    requires Coherent(o, m) && I.Stuck(m.core)
    ensures Stuck(m)
  {
    forall v | Internal(v) && Possible(m, v) ensures v.Sync? {
      if v.LoadAt? {
        assert I.Allowed(m.core, Load(m.core.counter == 0));
      } else if v.Step? {
        assert I.Allowed(m.core, v.l);
      }
    }
  }

  // ---------------------------------------------------------------- some schedule

  /** A call that can read a 0 can return; what else is to happen then happens. */
  lemma ZeroReturns(o: Orders, m: Memory, p: nat) returns (vs: seq<Move>)
    requires Coherent(o, m) && m.core.waiter == Checking && m.client.pos <= p < |m.hist| && m.hist[p].val == 0
    ensures Maximal(o, m, vs) && Last(o, m, vs).core.waiter == Outside
  {
    var m' := MemoryNext(o, m, LoadAt(p));
    CoherentMove(o, m, LoadAt(p));
    var rest := GoesOn(o, m');
    MaximalCons(o, m, LoadAt(p), rest);
    vs := [LoadAt(p)] + rest;
  }

  lemma MaximalCons(o: Orders, m: Memory, v: Move, rest: seq<Move>)
    requires Sized(m) && Possible(m, v) && Internal(v) && !(v.Step? && v.l.Drop?)
    requires Maximal(o, MemoryNext(o, m, v), rest)
    ensures Maximal(o, m, [v] + rest) && Last(o, m, [v] + rest) == Last(o, MemoryNext(o, m, v), rest)
  {
    assert ([v] + rest)[1..] == rest;
  }

  lemma GoesOn(o: Orders, m: Memory) returns (vs: seq<Move>)
    requires Coherent(o, m) && m.core.waiter == Outside
    ensures Maximal(o, m, vs) && Last(o, m, vs).core.waiter == Outside
  {
    var ls := L.SomeMaximalRun(m.core);
    L.StaysOutside(m.core, ls);
    vs := MaximalLift(o, m, ls);
  }

  lemma MaximalLift(o: Orders, m: Memory, ls: seq<Label>) returns (vs: seq<Move>)
    requires Coherent(o, m) && L.Maximal(m.core, ls)
    ensures Maximal(o, m, vs) && Last(o, m, vs).core == I.Final(m.core, ls)
  {
    vs := Lift(o, m, ls);
    CoherentRun(o, m, vs);
    StuckLifts(o, Last(o, m, vs));
  }

  /** Some schedule, and some choice of what the loads read, lets a call return if and only if the
      state it is made in is safe, or the waiter can read a 0 there and then. */
  lemma ReturnsUnderSomeSchedule(o: Orders, m: Memory)
    requires Coherent(o, m) && m.core.waiter == Checking
    ensures (exists vs :: Maximal(o, m, vs) && Last(o, m, vs).core.waiter == Outside) <==> L.Safe(m.core) || ZeroAhead(m)
  {
    if L.Safe(m.core) {
      CheckingIsSound(o, m);
      var ls := L.CountedFirst(m.core);
      var vs := MaximalLift(o, m, ls);
    } else if ZeroAhead(m) {
      var p :| m.client.pos <= p < |m.hist| && m.hist[p].val == 0;
      var vs := ZeroReturns(o, m, p);
    } else {
      forall vs | Maximal(o, m, vs) ensures Last(o, m, vs).core.waiter != Outside {
        UnsafeForever(o, m, vs);
      }
    }
  }

  /** With known roots, if and only if it is safe. */
  lemma RootedReturnsUnderSomeSchedule(o: Orders, m: Memory)
    requires Coherent(o, m) && Rooted(m) && m.core.waiter == Checking
    ensures (exists vs :: Maximal(o, m, vs) && Last(o, m, vs).core.waiter == Outside) <==> L.Safe(m.core)
  {
    ReturnsUnderSomeSchedule(o, m);
    if !L.Safe(m.core) {
      RootedIsBarred(o, m);
    }
  }
}
