/** Which memory orderings the protocol needs: the release on `fetch_sub` and the acquire on
    the load, and nothing else. */
module Orderings {
  import opened Programs
  import opened Protocol
  import opened WeakMemory
  import opened MemoryInvariants
  import opened MemoryRuns

  /** In every run, a return of `idle` makes visible all that the tasks it waited for wrote. */
  ghost predicate Publishes(o: Orders) {
    forall vs, p, i | Runs(o, BOOT, vs) && Returns(Last(o, BOOT, vs), p) && Covered(Last(o, BOOT, vs), p, i) ::
      Sees(Last(o, BOOT, vs), i, MemoryNext(o, Last(o, BOOT, vs), LoadAt(p)).client.seen)
  }

  predicate Returns(m: Memory, p: nat) {
    Possible(m, LoadAt(p)) && m.hist[p].val == 0
  }

  /** Task `i` was counted when the entry that the load returns was written. */
  predicate Covered(m: Memory, p: nat, i: nat) {
    i < |m.core.tasks| == |m.wrote| && m.core.tasks[i].counted && m.core.tasks[i].reserved <= p
  }

  /** Spawn a task that writes once and completes; then call `idle`. */
  const WITNESS: seq<Move> := [Spawned(true, true, Work(Return)), Step(Act(0)), Step(Act(0)), Step(Call)]

  /** The client thread after the witness has seen none of the task's writes. */
  lemma WitnessRuns(o: Orders)
    ensures Runs(o, BOOT, WITNESS)
    ensures var m := Last(o, BOOT, WITNESS);
            && |m.hist| == 3 && m.hist[0] == BOOT.hist[0] && m.hist[2].val == 0
            && m.hist[1].view.seen == {} && m.hist[2].release == Releases(o.sub)
            && m.client == View(1, {}) && m.core.waiter == Checking
            && |m.core.tasks| == 1 && m.wrote == [1]
            && m.core.tasks[0].counted && m.core.tasks[0].reserved == 1
  {
    var m1 := MemoryNext(o, BOOT, WITNESS[0]);
    assert Published(BOOT.hist, 0) == {};
    assert m1.hist[1].view == View(1, {}) && m1.client == View(1, {});
    var m2 := MemoryNext(o, m1, WITNESS[1]);
    assert m2.hist == m1.hist && m2.wrote == [1];
    var m3 := MemoryNext(o, m2, WITNESS[2]);
    assert m3.hist[2].val == 0;
    var m4 := MemoryNext(o, m3, WITNESS[3]);
    WitnessUnrolls(o, m1, m2, m3, m4);
  }

  lemma WitnessUnrolls(o: Orders, m1: Memory, m2: Memory, m3: Memory, m4: Memory)
    requires m1 == MemoryNext(o, BOOT, WITNESS[0])
    requires Possible(m1, WITNESS[1]) && m2 == MemoryNext(o, m1, WITNESS[1])
    requires Possible(m2, WITNESS[2]) && m3 == MemoryNext(o, m2, WITNESS[2])
    requires Possible(m3, WITNESS[3]) && m4 == MemoryNext(o, m3, WITNESS[3])
    ensures Runs(o, BOOT, WITNESS) && Last(o, BOOT, WITNESS) == m4
  {
  }

  lemma BlindLoad(o: Orders, m: Memory)
    requires !Releases(o.sub) || !Acquires(o.load)
    requires Sized(m) && |m.hist| == 3 && m.hist[0] == BOOT.hist[0] && m.hist[1].view.seen == {} && m.hist[2].release == Releases(o.sub)
    requires m.client == View(1, {}) && m.core.waiter == Checking
    ensures Possible(m, LoadAt(2)) && MemoryNext(o, m, LoadAt(2)).client.seen == {}
  {
  }

  /** Without the release or without the acquire, the witness returns blind. */
  lemma WitnessIsBlind(o: Orders)
    requires !Releases(o.sub) || !Acquires(o.load)
    ensures !Publishes(o)
  {
    WitnessRuns(o);
    var m := Last(o, BOOT, WITNESS);
    BlindLoad(o, m);
    assert Write(0, 0) !in MemoryNext(o, m, LoadAt(2)).client.seen;
    assert Returns(m, 2) && Covered(m, 2, 0) && !Sees(m, 0, MemoryNext(o, m, LoadAt(2)).client.seen);
  }

  lemma ReturnSees(o: Orders, m: Memory, p: nat, i: nat)
    requires Releases(o.sub) && Acquires(o.load) && Coherent(o, m) && Returns(m, p) && Covered(m, p, i)
    ensures Sees(m, i, MemoryNext(o, m, LoadAt(p)).client.seen)
  {
    ReturnPublishes(o, m, p, i);
    assert m.core.tasks[i].path <= m.core.tasks[i].path;
  }

  lemma ReachedIsCoherent(o: Orders, vs: seq<Move>)
    requires Runs(o, BOOT, vs)
    ensures Coherent(o, Last(o, BOOT, vs))
  {
    BootIsCoherent(o);
    CoherentRun(o, BOOT, vs);
  }

  /** The orderings that make a return of `idle` publish its tasks' writes are exactly those
      that release on `fetch_sub` and acquire on the load. The ordering of `fetch_add` and the
      fence in `Track::with` make no difference. */
  lemma PublishesIff(o: Orders)
    ensures Publishes(o) <==> Releases(o.sub) && Acquires(o.load)
  {
    if Releases(o.sub) && Acquires(o.load) {
      forall vs, p, i | Runs(o, BOOT, vs) && Returns(Last(o, BOOT, vs), p) && Covered(Last(o, BOOT, vs), p, i)
        ensures Sees(Last(o, BOOT, vs), i, MemoryNext(o, Last(o, BOOT, vs), LoadAt(p)).client.seen)
      {
        ReachedIsCoherent(o, vs);
        ReturnSees(o, Last(o, BOOT, vs), p, i);
      }
    } else {
      WitnessIsBlind(o);
    }
  }

  lemma CodePublishes()
    ensures Publishes(IN_CODE)
  {
    PublishesIff(IN_CODE);
  }

  /** `a` does all that `b` does. */
  predicate AtLeast(a: Ordering, b: Ordering) {
    (Acquires(b) ==> Acquires(a)) && (Releases(b) ==> Releases(a))
  }

  /** And they are the weakest that do, with or without the fence. */
  lemma CodeIsWeakest(o: Orders)
    ensures Publishes(o) ==> AtLeast(o.add, IN_CODE.add) && AtLeast(o.sub, IN_CODE.sub) && AtLeast(o.load, IN_CODE.load)
    ensures AtLeast(o.sub, IN_CODE.sub) && AtLeast(o.load, IN_CODE.load) ==> Publishes(o)
  {
    PublishesIff(o);
  }
}
