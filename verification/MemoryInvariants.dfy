/** What every move of the weak-memory model keeps, for any choice of orderings. */
module MemoryInvariants {
  import opened Programs
  import opened Protocol
  import opened Invariants
  import opened Completion
  import opened WeakMemory

  /** Every entry counts the tasks pending at its position. */
  ghost predicate Valued(m: Memory) {
    && Sized(m)
    && forall p :: 0 <= p < |m.hist| ==>
         m.hist[p].val == Sum(PendingAt(p), m.core.tasks) && (m.hist[p].rmw <==> p > 0)
  }

  /** All writes of task `i` are in `seen`. */
  ghost predicate Sees(m: Memory, i: nat, seen: set<Write>)
    requires i < |m.wrote|
  {
    forall n :: 0 <= n < m.wrote[i] ==> Write(i, n) in seen
  }

  /** A task knows its own writes, and its release entry carries them. */
  ghost predicate Carried(o: Orders, m: Memory) {
    && Sized(m)
    && forall i :: 0 <= i < |m.core.tasks| ==> CarriedBy(o, m, i)
  }

  ghost predicate CarriedBy(o: Orders, m: Memory, i: nat)
    requires Sized(m) && i < |m.core.tasks|
  {
    var t := m.core.tasks[i];
    && (t.phase.Running? ==> Sees(m, i, m.views[i].seen))
    && (t.released != 0 ==>
          && t.released < |m.hist|
          && m.hist[t.released].release == Releases(o.sub)
          && Sees(m, i, m.hist[t.released].view.seen))
  }

  /** A waiter blocked in `recv` read a non-zero entry no older than any token it consumed;
      and the token of a newest entry 0 is queued, about to be sent, or consumed. */
  ghost predicate Woken(m: Memory) {
    && Sized(m)
    && m.client.pos < |m.hist| && m.drained <= m.client.pos
    && (forall i :: 0 <= i < |m.views| ==> m.views[i].pos < |m.hist|)
    && (forall k :: 0 <= k < |m.tokens| ==> m.tokens[k].pos < |m.hist|)
    && (m.core.waiter == Receiving ==> m.drained <= m.read < |m.hist| && m.hist[m.read].val != 0)
    && (forall i :: 0 <= i < |m.core.tasks| && m.core.tasks[i].phase.Sending? ==> m.core.tasks[i].released <= m.views[i].pos)
    && (m.core.counter == 0 && m.core.clock > 0 ==> m.core.clock <= m.drained || TokenDue(m))
  }

  ghost predicate TokenDue(m: Memory)
    requires Sized(m)
  {
    || (exists i :: 0 <= i < |m.core.tasks| && m.core.tasks[i].phase.Sending? && m.core.tasks[i].released == m.core.clock)
    || (exists k :: 0 <= k < |m.tokens| && m.core.clock <= m.tokens[k].pos)
  }

  ghost predicate Coherent(o: Orders, m: Memory) {
    Good(m.core) && Valued(m) && Carried(o, m) && Woken(m)
  }

  lemma BootIsValued()
    ensures Valued(BOOT)
  {
  }

  lemma BootIsCarriedAndWoken(o: Orders)
    ensures Carried(o, BOOT) && Woken(BOOT)
  {
  }

  lemma BootIsCoherent(o: Orders)
    ensures Coherent(o, BOOT)
  {
    FreshIsGood();
    assert Good(BOOT.core);
    BootIsValued();
    BootIsCarriedAndWoken(o);
  }

  // ---------------------------------------------------------------- values

  lemma NewestValue(m: Memory)
    requires Accounted(m.core) && Stamped(m.core) && Valued(m)
    ensures m.hist[m.core.clock].val == m.core.counter
  {
    PendingNow(m.core);
  }

  /** What was pending at an old position does not change any more. */
  lemma PendingKept(s: State, s': State, p: nat)
    requires Kept(s, s') && p <= s.clock
    ensures Sum(PendingAt(p), s'.tasks) == Sum(PendingAt(p), s.tasks)
  {
    var ts, ts' := s.tasks, s'.tasks;
    var n := |ts|;
    SumPointwise(PendingAt(p), ts', PendingAt(p), ts, n);
  }

  lemma HistoryGrows(o: Orders, m: Memory, v: Move)
    requires Sized(m) && Possible(m, v) && |MemoryNext(o, m, v).hist| > |m.hist|
    ensures var m' := MemoryNext(o, m, v);
            && |m'.hist| == |m.hist| + 1
            && m'.hist[|m.hist|].rmw
            && m'.hist[|m.hist|].val - m.hist[|m.hist| - 1].val == m'.core.counter - m.core.counter
  {
  }

  lemma ValuedFrom(m: Memory, m': Memory)
    requires Valued(m) && Sized(m') && m.hist <= m'.hist && Kept(m.core, m'.core)
    requires |m'.hist| > |m.hist| ==>
               && m'.hist[m'.core.clock].rmw
               && m'.hist[m'.core.clock].val == Sum(PendingAt(m'.core.clock), m'.core.tasks)
    ensures Valued(m')
  {
    forall p | 0 <= p < |m'.hist|
      ensures m'.hist[p].val == Sum(PendingAt(p), m'.core.tasks) && (m'.hist[p].rmw <==> p > 0)
    {
      if p < |m.hist| {
        assert m'.hist[p] == m.hist[p];
        PendingKept(m.core, m'.core, p);
      }
    }
  }

  /** The new entry, if there is one, counts what is pending now. */
  lemma NewEntry(o: Orders, m: Memory, v: Move)
    requires Accounted(m.core) && Stamped(m.core) && Valued(m) && Possible(m, v)
    requires Accounted(CoreNext(m, v)) && Stamped(CoreNext(m, v))
    requires |MemoryNext(o, m, v).hist| > |m.hist|
    ensures var m' := MemoryNext(o, m, v);
            m'.hist[m'.core.clock].rmw && m'.hist[m'.core.clock].val == Sum(PendingAt(m'.core.clock), m'.core.tasks)
  {
    HistoryGrows(o, m, v);
    NewestValue(m);
    PendingNow(CoreNext(m, v));
  }

  lemma ValuedMove(o: Orders, m: Memory, v: Move)
    requires Accounted(m.core) && Stamped(m.core) && Valued(m) && Possible(m, v)
    requires Accounted(CoreNext(m, v)) && Stamped(CoreNext(m, v)) && (v.Sync? || Kept(m.core, CoreNext(m, v)))
    ensures Valued(MemoryNext(o, m, v))
  {
    var m' := MemoryNext(o, m, v);
    if v.Sync? {
      assert m'.hist == m.hist;
    } else {
      if |m'.hist| > |m.hist| {
        NewEntry(o, m, v);
      }
      ValuedFrom(m, m');
    }
  }

  // ---------------------------------------------------------------- writes

  lemma CarriedAct(o: Orders, m: Memory, i: nat)
    requires Stamped(m.core) && Carried(o, m) && Possible(m, Step(Act(i)))
    ensures Carried(o, MemoryNext(o, m, Step(Act(i))))
  {
    var m' := MemoryNext(o, m, Step(Act(i)));
    forall j | 0 <= j < |m'.core.tasks| ensures CarriedBy(o, m', j) {
      if j < |m.core.tasks| {
        assert CarriedBy(o, m, j);
        assert WellStamped(m.core.tasks[j], m.core.clock);
        if j == i {
          CarriedActor(o, m, i);
        }
      }
    }
  }

  lemma CarriedActor(o: Orders, m: Memory, i: nat)
    requires Stamped(m.core) && Carried(o, m) && Possible(m, Step(Act(i)))
    requires Sized(MemoryNext(o, m, Step(Act(i))))
    ensures CarriedBy(o, MemoryNext(o, m, Step(Act(i))), i)
  {
    assert CarriedBy(o, m, i);
    assert WellStamped(m.core.tasks[i], m.core.clock);
  }

  /** A move that leaves old tasks where they are, and no view smaller. */
  lemma CarriedFrom(o: Orders, m: Memory, m': Memory)
    requires Stamped(m.core) && Carried(o, m) && Sized(m') && m.hist <= m'.hist && m.wrote <= m'.wrote
    requires Kept(m.core, m'.core) && |m.views| <= |m'.views|
    requires forall j :: 0 <= j < |m.core.tasks| ==>
               && m.views[j].seen <= m'.views[j].seen
               && m'.core.tasks[j].released == m.core.tasks[j].released
               && (m'.core.tasks[j].phase.Running? ==> m.core.tasks[j].phase.Running?)
    requires |m'.core.tasks| > |m.core.tasks| ==> m'.wrote[|m.core.tasks|] == 0
    ensures Carried(o, m')
  {
    forall j | 0 <= j < |m'.core.tasks| ensures CarriedBy(o, m', j) {
      if j < |m.core.tasks| {
        assert CarriedBy(o, m, j);
        assert m'.wrote[j] == m.wrote[j];
      }
    }
  }

  lemma CarriedMove(o: Orders, m: Memory, v: Move)
    requires Stamped(m.core) && Carried(o, m) && Possible(m, v)
    ensures Carried(o, MemoryNext(o, m, v))
  {
    var m' := MemoryNext(o, m, v);
    if v.Step? && v.l.Act? {
      CarriedAct(o, m, v.l.i);
    } else {
      if !v.Sync? {
        KeptStep(m.core, CoreStep(m, v));
      }
      CarriedFrom(o, m, m');
    }
  }

  // ---------------------------------------------------------------- wake-ups

  /** Nothing but a read-modify-write changes when a wake-up is due. */
  lemma WokenFrom(m: Memory, m': Memory)
    requires Woken(m) && Sized(m')
    requires m'.hist == m.hist && m'.core.clock == m.core.clock && m'.core.counter == m.core.counter
    requires m'.tokens == m.tokens && |m.core.tasks| <= |m'.core.tasks|
    requires m'.drained == m.drained && m.client.pos <= m'.client.pos < |m.hist|
    requires m'.core.waiter == Receiving ==> m'.drained <= m'.read < |m.hist| && m.hist[m'.read].val != 0
    requires forall j :: 0 <= j < |m'.views| ==> m'.views[j].pos < |m.hist|
    requires forall j :: 0 <= j < |m.core.tasks| ==>
               && m.views[j].pos <= m'.views[j].pos
               && (m.core.tasks[j].phase.Sending? ==> m'.core.tasks[j] == m.core.tasks[j])
    requires forall j :: 0 <= j < |m'.core.tasks| && m'.core.tasks[j].phase.Sending? ==> j < |m.core.tasks| && m.core.tasks[j].phase.Sending?
    ensures Woken(m')
  {
  }

  lemma WokenRelease(o: Orders, m: Memory, i: nat)
    requires Accounted(m.core) && Stamped(m.core) && Valued(m) && Woken(m) && Possible(m, Step(Act(i)))
    requires m.core.tasks[i].counted && m.core.tasks[i].phase.prog.Return?
    ensures Woken(MemoryNext(o, m, Step(Act(i))))
  {
    var m' := MemoryNext(o, m, Step(Act(i)));
    if m'.core.counter == 0 {
      assert m'.core.tasks[i].phase.Sending? && m'.core.tasks[i].released == m'.core.clock;
    }
  }

  lemma WokenReserve(o: Orders, m: Memory, i: nat)
    requires Accounted(m.core) && Stamped(m.core) && Valued(m) && Woken(m) && Possible(m, Step(Act(i)))
    requires m.core.tasks[i].phase.prog.Spawn?
    ensures Woken(MemoryNext(o, m, Step(Act(i))))
  {
    var m' := MemoryNext(o, m, Step(Act(i)));
    assert m'.core.counter == m.core.counter + 1 > 0;
  }

  lemma WokenAct(o: Orders, m: Memory, i: nat)
    requires Accounted(m.core) && Stamped(m.core) && Valued(m) && Woken(m) && Possible(m, Step(Act(i)))
    ensures Woken(MemoryNext(o, m, Step(Act(i))))
  {
    var t := m.core.tasks[i];
    if t.counted && t.phase.prog.Return? {
      WokenRelease(o, m, i);
    } else if t.phase.prog.Spawn? {
      WokenReserve(o, m, i);
    } else {
      WokenQuiet(o, m, i);
    }
  }

  lemma WokenQuiet(o: Orders, m: Memory, i: nat)
    requires Woken(m) && Possible(m, Step(Act(i)))
    requires !m.core.tasks[i].phase.prog.Spawn? && !(m.core.tasks[i].counted && m.core.tasks[i].phase.prog.Return?)
    ensures Woken(MemoryNext(o, m, Step(Act(i))))
  {
    WokenFrom(m, MemoryNext(o, m, Step(Act(i))));
  }

  /** A sent token knows at least its own crossing. */
  lemma WokenSend(o: Orders, m: Memory, i: nat)
    requires Woken(m) && Possible(m, Step(Send(i)))
    ensures Woken(MemoryNext(o, m, Step(Send(i))))
  {
    var m' := MemoryNext(o, m, Step(Send(i)));
    if m.core.counter == 0 && m.core.clock > m.drained && m.core.clock > 0 {
      var n := |m.tokens|;
      assert m'.tokens[n] == m.views[i];
      if j :| 0 <= j < |m.core.tasks| && m.core.tasks[j].phase.Sending? && m.core.tasks[j].released == m.core.clock {
        if j == i {
          assert m'.core.clock <= m'.tokens[n].pos;
        } else {
          assert m'.core.tasks[j].phase.Sending?;
        }
      } else {
        var k :| 0 <= k < |m.tokens| && m.core.clock <= m.tokens[k].pos;
        assert m'.tokens[k] == m.tokens[k];
      }
    }
  }

  /** A consumed token raises the waiter's knowledge past its crossing. */
  lemma WokenRecv(o: Orders, m: Memory)
    requires Woken(m) && Possible(m, Step(Recv))
    ensures Woken(MemoryNext(o, m, Step(Recv)))
  {
  }

  lemma WokenSpawned(o: Orders, m: Memory, v: Move)
    requires Accounted(m.core) && Stamped(m.core) && Valued(m) && Woken(m) && v.Spawned?
    ensures Woken(MemoryNext(o, m, v))
  {
    var m' := MemoryNext(o, m, v);
    if v.counted {
      assert m'.core.counter == m.core.counter + 1 > 0;
    } else {
      WokenFrom(m, m');
    }
  }

  /** A load moves the waiter's knowledge to the entry it returned, never back. */
  lemma WokenLoadOrSync(o: Orders, m: Memory, v: Move)
    requires Woken(m) && Possible(m, v) && (v.LoadAt? || v.Sync?)
    ensures Woken(MemoryNext(o, m, v))
  {
    WokenFrom(m, MemoryNext(o, m, v));
  }

  lemma WokenOther(o: Orders, m: Memory, l: Label)
    requires Woken(m) && Possible(m, Step(l)) && !l.Act? && !l.Send? && !l.Recv?
    ensures Woken(MemoryNext(o, m, Step(l)))
  {
  }

  lemma WokenMove(o: Orders, m: Memory, v: Move)
    requires Accounted(m.core) && Stamped(m.core) && Valued(m) && Woken(m) && Possible(m, v)
    ensures Woken(MemoryNext(o, m, v))
  {
    match v {
      case Step(l) =>
        if l.Act? {
          WokenAct(o, m, l.i);
        } else if l.Send? {
          WokenSend(o, m, l.i);
        } else if l.Recv? {
          WokenRecv(o, m);
        } else {
          WokenOther(o, m, l);
        }
      case Spawned(_, _, _) => WokenSpawned(o, m, v);
      case _ => WokenLoadOrSync(o, m, v);
    }
  }

  /** The invariant of every weak-memory run. */
  lemma CoherentMove(o: Orders, m: Memory, v: Move)
    requires Coherent(o, m) && Possible(m, v)
    ensures Coherent(o, MemoryNext(o, m, v))
  {
    if !v.Sync? {
      GoodStep(m.core, CoreStep(m, v));
    }
    ValuedMove(o, m, v);
    CarriedMove(o, m, v);
    WokenMove(o, m, v);
  }
}
