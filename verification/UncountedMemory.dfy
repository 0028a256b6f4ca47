/** Tasks spawned with a `JoinHandle` under weak memory. They may pass on what they have seen, so
    they cannot be erased; but they need do nothing else: a runtime whose uncounted tasks never
    run, and only hand on what they know, has the same counter history, tokens and waits, and
    shows the waiter the same writes of counted tasks. */
module UncountedMemory {
  import opened Programs
  import opened Protocol
  import opened Invariants
  import opened WeakMemory
  import opened MemoryInvariants
  import opened MemoryRuns
  import L = Liveness

  // ---------------------------------------------------------------- hollow runtimes

  /** The program with nothing to run in what it spawns without counting. */
  function Hollow(p: Prog): Prog {
    match p
    case Return => Return
    case Work(rest) => Work(Hollow(rest))
    case Spawn(child, rest) => Spawn(Hollow(child), Hollow(rest))
    case SpawnHandle(_, rest) => SpawnHandle(Return, Hollow(rest))
    case Panic => Panic
  }

  function HollowTask(t: Task): Task {
    if !t.counted then Uncounted(Return) else
      t.(body := Hollow(t.body),
         phase := match t.phase
                  case Running(p) => Running(Hollow(p))
                  case Abandoned(p) => Abandoned(Hollow(p))
                  case other => other)
  }

  /** The writes of the tasks that are not in `carriers`. */
  function Counted(carriers: set<nat>, seen: set<Write>): set<Write> {
    set w | w in seen && w.task !in carriers
  }

  function HollowView(carriers: set<nat>, v: View): View {
    View(v.pos, Counted(carriers, v.seen))
  }

  ghost predicate SameCore(s: State, t: State) {
    && t == s.(tasks := t.tasks) && |t.tasks| == |s.tasks|
    && forall i :: 0 <= i < |s.tasks| ==> t.tasks[i] == HollowTask(s.tasks[i])
  }

  ghost predicate SameHistory(carriers: set<nat>, a: seq<Entry>, b: seq<Entry>) {
    |b| == |a| && forall p :: 0 <= p < |a| ==> b[p] == a[p].(view := HollowView(carriers, a[p].view))
  }

  ghost predicate SameViews(carriers: set<nat>, a: seq<View>, b: seq<View>) {
    |b| == |a| && forall i :: 0 <= i < |a| ==> b[i] == HollowView(carriers, a[i])
  }

  /** The same memory, but for what uncounted tasks have to run and have written. */
  ghost predicate Same(carriers: set<nat>, m: Memory, h: Memory) {
    && Sized(m) && Sized(h) && SameCore(m.core, h.core)
    && SameHistory(carriers, m.hist, h.hist) && SameViews(carriers, m.views, h.views) && SameViews(carriers, m.tokens, h.tokens)
    && (forall i :: 0 <= i < |m.wrote| ==> h.wrote[i] == if i in carriers then 0 else m.wrote[i])
    && h.client == HollowView(carriers, m.client) && h.read == m.read && h.drained == m.drained
  }

  /** In particular a thread sees the same writes of counted tasks, and is at the same position. */
  lemma SameSight(carriers: set<nat>, m: Memory, h: Memory, w: Write)
    requires Same(carriers, m, h) && w.task !in carriers
    ensures h.client.pos == m.client.pos && (w in h.client.seen <==> w in m.client.seen)
    ensures forall i :: 0 <= i < |m.views| ==> h.views[i].pos == m.views[i].pos && (w in h.views[i].seen <==> w in m.views[i].seen)
    ensures h.core.counter == m.core.counter && h.core.queue == m.core.queue && h.core.waiter == m.core.waiter
    ensures forall p :: 0 <= p < |m.hist| ==> h.hist[p].val == m.hist[p].val
  {
  }

  /** `carriers` are the uncounted ones among the tasks. */
  predicate AreUncounted(carriers: set<nat>, ts: seq<Task>) {
    forall i :: 0 <= i < |ts| ==> (i in carriers <==> !ts[i].counted)
  }

  // ---------------------------------------------------------------- views

  lemma PublishedSame(carriers: set<nat>, a: seq<Entry>, b: seq<Entry>, p: nat)
    requires SameHistory(carriers, a, b) && p < |a|
    ensures Published(b, p) == Counted(carriers, Published(a, p))
  {
    forall j: nat ensures Heads(a, j, p) <==> Heads(b, j, p) {
    }
    forall w ensures w in Published(b, p) <==> w in Counted(carriers, Published(a, p)) {
      if w in Published(b, p) {
        var j :| 0 <= j < |b| && Heads(b, j, p) && w in b[j].view.seen;
        assert Heads(a, j, p) && w in a[j].view.seen;
      }
      if w in Counted(carriers, Published(a, p)) {
        var j :| 0 <= j < |a| && Heads(a, j, p) && w in a[j].view.seen;
        assert Heads(b, j, p) && w in b[j].view.seen;
      }
    }
  }

  lemma LearnSame(carriers: set<nat>, acquires: bool, v: View, writes: set<Write>)
    ensures Learn(acquires, HollowView(carriers, v), Counted(carriers, writes)) == HollowView(carriers, Learn(acquires, v, writes))
  {
    assert Counted(carriers, v.seen) + Counted(carriers, writes) == Counted(carriers, v.seen + writes);
  }

  lemma JoinSame(carriers: set<nat>, a: View, b: View)
    ensures Join(HollowView(carriers, a), HollowView(carriers, b)) == HollowView(carriers, Join(a, b))
  {
    assert Counted(carriers, a.seen) + Counted(carriers, b.seen) == Counted(carriers, a.seen + b.seen);
  }

  lemma RmwSame(carriers: set<nat>, a: seq<Entry>, b: seq<Entry>, v: View, o: Ordering, delta: int)
    requires SameHistory(carriers, a, b) && a != []
    ensures AfterRmw(b, HollowView(carriers, v), o) == HollowView(carriers, AfterRmw(a, v, o))
    ensures SameHistory(carriers, Rmw(a, v, o, delta), Rmw(b, HollowView(carriers, v), o, delta))
  {
    PublishedSame(carriers, a, b, |a| - 1);
    LearnSame(carriers, Acquires(o), v.(pos := |a|), Published(a, |a| - 1));
  }

  // ---------------------------------------------------------------- steps that stay

  /** The move of the hollow runtime for one that stays. */
  function HollowMove(v: Move): Move {
    match v
    case Spawned(own, counted, body) => Spawned(own, counted, if counted then Hollow(body) else Return)
    case _ => v
  }

  function HollowLabel(l: Label): Label {
    match l
    case Root(counted, body) => Root(counted, if counted then Hollow(body) else Return)
    case _ => l
  }

  /** Steps that are not an uncounted task's own. */
  predicate Stays(s: State, l: Label)
    requires Enabled(s, l)
  {
    match l
    case Act(i) => s.tasks[i].counted
    case Send(i) => s.tasks[i].counted
    case Drop(i) => s.tasks[i].counted
    case _ => true
  }

  lemma CoreStays(s: State, t: State, l: Label)
    requires SameCore(s, t) && Enabled(s, l) && Stays(s, l)
    ensures Enabled(t, HollowLabel(l)) && SameCore(Next(s, l), Next(t, HollowLabel(l)))
  {
    if l.Act? || l.Send? || l.Drop? {
      assert t.tasks[l.i] == HollowTask(s.tasks[l.i]);
    }
    if l.Act? {
      ActStays(s, t, l.i);
    }
  }

  lemma ActStays(s: State, t: State, i: nat)
    requires SameCore(s, t) && Enabled(s, Act(i)) && s.tasks[i].counted
    ensures Enabled(t, Act(i)) && SameCore(ActNext(s, i), ActNext(t, i))
  {
    assert t.tasks[i] == HollowTask(s.tasks[i]);
    match s.tasks[i].phase.prog
    case Return =>
    case Work(_) =>
    case Spawn(_, _) =>
    case SpawnHandle(_, _) =>
    case Panic =>
  }

  /** What a counted task's action does to histories and views. */
  lemma ActMemorySame(o: Orders, carriers: set<nat>, m: Memory, h: Memory, i: nat)
    requires Same(carriers, m, h) && Enabled(m.core, Act(i)) && m.core.tasks[i].counted && i !in carriers
    requires Enabled(h.core, Act(i))
    requires m.core.tasks[i].phase.prog.Spawn? ==> |m.core.tasks| !in carriers
    ensures SameParts(carriers, ActMemory(o, m, i), ActMemory(o, h, i))
  {
    assert h.core.tasks[i] == HollowTask(m.core.tasks[i]);
    var v, last := m.views[i], |m.hist| - 1;
    match m.core.tasks[i].phase.prog
    case Work(_) =>
      LearnSame(carriers, true, v, {Write(i, m.wrote[i])});
      assert Counted(carriers, {Write(i, m.wrote[i])}) == {Write(i, m.wrote[i])};
    case Spawn(_, _) => RmwSame(carriers, m.hist, h.hist, v, o.add, 1);
    case SpawnHandle(_, _) =>
    case Return =>
      RmwSame(carriers, m.hist, h.hist, v, o.sub, -1);
      PublishedSame(carriers, m.hist, h.hist, last);
      LearnSame(carriers, o.fence && m.hist[last].val == 1, AfterRmw(m.hist, v, o.sub), Published(m.hist, last));
    case Panic =>
  }

  /** All of a memory but its core. */
  ghost predicate SameParts(carriers: set<nat>, m: Memory, h: Memory) {
    && SameHistory(carriers, m.hist, h.hist) && SameViews(carriers, m.views, h.views) && SameViews(carriers, m.tokens, h.tokens)
    && |h.wrote| == |m.wrote| && (forall i :: 0 <= i < |m.wrote| ==> h.wrote[i] == if i in carriers then 0 else m.wrote[i])
    && h.client == HollowView(carriers, m.client) && h.read == m.read && h.drained == m.drained
  }

  lemma StepSame(o: Orders, carriers: set<nat>, m: Memory, h: Memory, l: Label)
    requires Same(carriers, m, h) && AreUncounted(carriers, m.core.tasks) && Possible(m, Step(l)) && Stays(m.core, l)
    requires Possible(h, Step(l)) && AreUncounted(carriers, CoreNext(m, Step(l)).tasks)
    ensures SameParts(carriers, StepMemory(o, m, l), StepMemory(o, h, l))
  {
    match l
    case Act(i) => ActMemorySame(o, carriers, m, h, i);
    case Send(i) =>
    case Recv => JoinSame(carriers, m.client, m.tokens[0]);
    case _ =>
  }

  lemma SpawnSame(o: Orders, carriers: set<nat>, m: Memory, h: Memory, own: bool, counted: bool)
    requires Same(carriers, m, h) && (|m.core.tasks| in carriers <==> !counted)
    ensures SameParts(carriers, SpawnMemory(o, m, own, counted), SpawnMemory(o, h, own, counted))
  {
    assert HollowView(carriers, NOTHING) == NOTHING;
    RmwSame(carriers, m.hist, h.hist, if own then m.client else NOTHING, o.add, 1);
  }

  lemma LoadSame(o: Orders, carriers: set<nat>, m: Memory, h: Memory, p: nat)
    requires Same(carriers, m, h) && Possible(m, LoadAt(p))
    ensures Learn(Acquires(o.load), h.client.(pos := p), Published(h.hist, p)) ==
              HollowView(carriers, Learn(Acquires(o.load), m.client.(pos := p), Published(m.hist, p)))
  {
    PublishedSame(carriers, m.hist, h.hist, p);
    LearnSame(carriers, Acquires(o.load), m.client.(pos := p), Published(m.hist, p));
  }

  lemma SyncSame(carriers: set<nat>, m: Memory, h: Memory, to: Party, from: Party)
    requires Same(carriers, m, h) && Possible(m, Sync(to, from))
    ensures Exists(h, to) && Exists(h, from) && SameParts(carriers, SyncMemory(m, to, from), SyncMemory(h, to, from))
  {
    var v := if from.Client? then m.client else m.views[from.task];
    match to
    case Client => JoinSame(carriers, m.client, v);
    case Of(i) => JoinSame(carriers, m.views[i], v);
  }

  predicate MoveStays(m: Memory, v: Move)
    requires Possible(m, v)
  {
    v.Sync? || Stays(m.core, CoreStep(m, v))
  }

  lemma MoveSame(o: Orders, carriers: set<nat>, m: Memory, h: Memory, v: Move)
    requires Same(carriers, m, h) && AreUncounted(carriers, m.core.tasks) && Possible(m, v) && MoveStays(m, v)
    requires AreUncounted(carriers, CoreNext(m, v).tasks)
    ensures Possible(h, HollowMove(v)) && Same(carriers, MemoryNext(o, m, v), MemoryNext(o, h, HollowMove(v)))
  {
    if !v.Sync? {
      CoreStays(m.core, h.core, CoreStep(m, v));
    }
    match v {
      case Step(l) => StepSame(o, carriers, m, h, l);
      case Spawned(own, counted, body) => SpawnedSame(o, carriers, m, h, v);
      case LoadAt(p) => LoadSame(o, carriers, m, h, p);
      case Sync(to, from) => SyncSame(carriers, m, h, to, from);
    }
  }

  lemma SpawnedSame(o: Orders, carriers: set<nat>, m: Memory, h: Memory, v: Move)
    requires Same(carriers, m, h) && v.Spawned? && AreUncounted(carriers, CoreNext(m, v).tasks)
    ensures SameParts(carriers, SpawnMemory(o, m, v.own, v.counted), SpawnMemory(o, h, v.own, v.counted))
  {
    assert CoreNext(m, v).tasks[|m.core.tasks|].counted == v.counted;
    SpawnSame(o, carriers, m, h, v.own, v.counted);
  }

  // ---------------------------------------------------------------- what shows

  /** What idleness is about: the counter and its position, the tokens, the waiter and what it read. */
  datatype Glance = Glance(counter: int, clock: nat, queue: nat, waiter: Waiter, read: nat)

  function Observe(m: Memory): Glance {
    Glance(m.core.counter, m.core.clock, m.core.queue, m.core.waiter, m.read)
  }

  /** What a move shows, if it shows anything. */
  function Glimpse(m: Memory, m': Memory): seq<Glance> {
    if Observe(m') == Observe(m) then [] else [Observe(m')]
  }

  /** The successive distinct observations of a run. */
  function Trace(o: Orders, m: Memory, vs: seq<Move>): seq<Glance>
    requires Sized(m) && Runs(o, m, vs)
    decreases |vs|
  {
    if vs == [] then [] else
      Glimpse(m, MemoryNext(o, m, vs[0])) + Trace(o, MemoryNext(o, m, vs[0]), vs[1..])
  }

  lemma TraceOne(o: Orders, m: Memory, v: Move)
    requires Sized(m) && Possible(m, v)
    ensures Runs(o, m, [v]) && Last(o, m, [v]) == MemoryNext(o, m, v) && Trace(o, m, [v]) == Glimpse(m, MemoryNext(o, m, v))
  {
    assert [v][1..] == [];
  }

  // ---------------------------------------------------------------- steps that go

  lemma CoreGoes(s: State, t: State, l: Label)
    requires SameCore(s, t) && L.Harmless(s) && Enabled(s, l) && !Stays(s, l) && |Next(s, l).tasks| == |s.tasks|
    requires !l.Send?
    ensures SameCore(Next(s, l), t)
  {
    assert L.HarmlessTask(s.tasks[l.i]);
  }

  /** A step of an uncounted task that spawns nothing leaves no trace. */
  lemma MoveGoes(o: Orders, carriers: set<nat>, m: Memory, h: Memory, l: Label)
    requires Same(carriers, m, h) && AreUncounted(carriers, m.core.tasks) && L.Harmless(m.core) && Stamped(m.core)
    requires Possible(m, Step(l)) && !Stays(m.core, l) && |Next(m.core, l).tasks| == |m.core.tasks|
    ensures Same(carriers, MemoryNext(o, m, Step(l)), h)
  {
    assert WellStamped(m.core.tasks[l.i], m.core.clock);
    CoreGoes(m.core, h.core, l);
    if l.Act? && m.core.tasks[l.i].phase.prog.Work? {
      var v := m.views[l.i];
      assert Counted(carriers, v.seen + {Write(l.i, m.wrote[l.i])}) == Counted(carriers, v.seen);
    }
  }

  /** An uncounted task that appears out of nowhere, and is told what `i` knows. */
  function Fork(n: nat, i: nat): seq<Move> {
    [Spawned(false, false, Return), Sync(Of(n), Of(i))]
  }

  /** What `Fork` leaves. */
  function Forked(h: Memory, i: nat): Memory
    requires i < |h.views|
  {
    h.(core := Next(h.core, Root(false, Return)), views := h.views + [h.views[i]], wrote := h.wrote + [0])
  }

  lemma ForkRuns(o: Orders, h: Memory, i: nat)
    requires Sized(h) && i < |h.views|
    ensures Runs(o, h, Fork(|h.views|, i)) && Last(o, h, Fork(|h.views|, i)) == Forked(h, i)
    ensures Trace(o, h, Fork(|h.views|, i)) == []
  {
    var n := |h.views|;
    var us := Fork(n, i);
    var h1 := MemoryNext(o, h, us[0]);
    assert us[1..] == [us[1]];
    assert h1.views == h.views + [NOTHING] && h1.views[i] == h.views[i];
    TraceOne(o, h1, us[1]);
    assert Join(NOTHING, h.views[i]) == h.views[i] by {
      assert {} + h.views[i].seen == h.views[i].seen;
    }
    assert h1.views[n := h.views[i]] == h.views + [h.views[i]];
    assert MemoryNext(o, h1, us[1]) == Forked(h, i);
  }

  lemma CoreForks(s: State, t: State, i: nat)
    requires SameCore(s, t) && L.Harmless(s) && Enabled(s, Act(i)) && !s.tasks[i].counted
    requires |ActNext(s, i).tasks| != |s.tasks|
    ensures s.tasks[i].phase.prog.SpawnHandle? && SameCore(ActNext(s, i), Next(t, Root(false, Return)))
  {
    assert L.HarmlessTask(s.tasks[i]);
  }

  lemma MoveForks(o: Orders, carriers: set<nat>, m: Memory, h: Memory, i: nat)
    requires Same(carriers, m, h) && L.Harmless(m.core) && Enabled(m.core, Act(i)) && !m.core.tasks[i].counted
    requires |ActNext(m.core, i).tasks| != |m.core.tasks| && |m.core.tasks| in carriers
    ensures Same(carriers, MemoryNext(o, m, Step(Act(i))), Forked(h, i))
  {
    CoreForks(m.core, h.core, i);
    assert SameParts(carriers, ActMemory(o, m, i), Forked(h, i));
  }

  // ---------------------------------------------------------------- runs

  lemma {:induction false} RunsConcat(o: Orders, m: Memory, a: seq<Move>, b: seq<Move>)
    requires Sized(m) && Runs(o, m, a) && Runs(o, Last(o, m, a), b)
    ensures Runs(o, m, a + b) && Last(o, m, a + b) == Last(o, Last(o, m, a), b)
    decreases |a|
  {
    if a == [] {
      assert a + b == b;
    } else {
      assert (a + b)[1..] == a[1..] + b;
      RunsConcat(o, MemoryNext(o, m, a[0]), a[1..], b);
    }
  }

  lemma {:induction false} TraceConcat(o: Orders, m: Memory, a: seq<Move>, b: seq<Move>)
    requires Sized(m) && Runs(o, m, a) && Runs(o, Last(o, m, a), b) && Runs(o, m, a + b)
    ensures Trace(o, m, a + b) == Trace(o, m, a) + Trace(o, Last(o, m, a), b)
    decreases |a|
  {
    if a == [] {
      assert a + b == b;
    } else {
      assert (a + b)[1..] == a[1..] + b;
      TraceConcat(o, MemoryNext(o, m, a[0]), a[1..], b);
    }
  }

  /** No carrier takes a step of its own. */
  predicate OnlyCarry(vs: seq<Move>, carriers: set<nat>) {
    forall k :: 0 <= k < |vs| ==> MayHappen(vs[k], carriers)
  }

  predicate MayHappen(v: Move, carriers: set<nat>) {
    v.Step? ==> (v.l.Act? || v.l.Drop? ==> v.l.i !in carriers)
  }

  predicate HarmlessMove(v: Move) {
    v.Spawned? ==> if v.counted then Separated(v.body) else HandleOnly(v.body)
  }

  lemma {:induction false} TasksStay(o: Orders, m: Memory, vs: seq<Move>)
    requires Sized(m) && Stamped(m.core) && Runs(o, m, vs)
    ensures |m.core.tasks| <= |Last(o, m, vs).core.tasks|
    ensures forall i :: 0 <= i < |m.core.tasks| ==> Last(o, m, vs).core.tasks[i].counted == m.core.tasks[i].counted
    decreases |vs|
  {
    if vs != [] {
      MoveKeeps(o, m, vs[0]);
      TasksStay(o, MemoryNext(o, m, vs[0]), vs[1..]);
    }
  }

  lemma MoveKeeps(o: Orders, m: Memory, v: Move)
    requires Sized(m) && Stamped(m.core) && Possible(m, v)
    ensures Stamped(CoreNext(m, v)) && |m.core.tasks| <= |CoreNext(m, v).tasks| <= |m.core.tasks| + 1
    ensures forall i :: 0 <= i < |m.core.tasks| ==> CoreNext(m, v).tasks[i].counted == m.core.tasks[i].counted
  {
    if !v.Sync? {
      KeptStep(m.core, CoreStep(m, v));
      StampedStep(m.core, CoreStep(m, v));
    }
  }

  /** One move of the runtime, as none, one or two of the hollow one. */
  lemma OneMove(o: Orders, carriers: set<nat>, m: Memory, h: Memory, v: Move) returns (us: seq<Move>)
    requires Same(carriers, m, h) && Stamped(m.core) && L.Harmless(m.core) && Possible(m, v)
    requires AreUncounted(carriers, m.core.tasks) && AreUncounted(carriers, CoreNext(m, v).tasks)
    ensures Runs(o, h, us) && Same(carriers, MemoryNext(o, m, v), Last(o, h, us)) && OnlyCarry(us, carriers)
    ensures Trace(o, h, us) == Glimpse(m, MemoryNext(o, m, v))
  {
    if MoveStays(m, v) {
      MoveSame(o, carriers, m, h, v);
      us := [HollowMove(v)];
      TraceOne(o, h, HollowMove(v));
    } else {
      var l := CoreStep(m, v);
      assert WellStamped(m.core.tasks[l.i], m.core.clock);
      assert L.HarmlessTask(m.core.tasks[l.i]);
      if |Next(m.core, l).tasks| == |m.core.tasks| {
        MoveGoes(o, carriers, m, h, l);
        us := [];
      } else {
        ForkRuns(o, h, l.i);
        MoveForks(o, carriers, m, h, l.i);
        us := Fork(|h.views|, l.i);
      }
    }
  }

  lemma OnlyCarryConcat(a: seq<Move>, b: seq<Move>, carriers: set<nat>)
    requires OnlyCarry(a, carriers) && OnlyCarry(b, carriers)
    ensures OnlyCarry(a + b, carriers)
  {
  }

  lemma HarmlessNext(o: Orders, m: Memory, v: Move)
    requires Sized(m) && L.Harmless(m.core) && HarmlessMove(v) && Possible(m, v)
    ensures L.Harmless(CoreNext(m, v))
  {
    if !v.Sync? {
      L.HarmlessStep(m.core, CoreStep(m, v));
    }
  }

  /** The uncounted tasks of a run need not run. There is a run of the hollow runtime with the
      same trace, in which they take no step, and which ends in the same memory but for what they
      had to run and have written. */
  lemma {:induction false} HollowRun(o: Orders, carriers: set<nat>, m: Memory, h: Memory, vs: seq<Move>)
    returns (us: seq<Move>)
    requires Same(carriers, m, h) && Stamped(m.core) && L.Harmless(m.core)
    requires Runs(o, m, vs) && forall v :: v in vs ==> HarmlessMove(v)
    requires AreUncounted(carriers, Last(o, m, vs).core.tasks)
    ensures Runs(o, h, us) && OnlyCarry(us, carriers)
    ensures Same(carriers, Last(o, m, vs), Last(o, h, us)) && Trace(o, h, us) == Trace(o, m, vs)
    decreases |vs|
  {
    if vs == [] {
      us := [];
    } else {
      var m' := MemoryNext(o, m, vs[0]);
      MoveKeeps(o, m, vs[0]);
      HarmlessNext(o, m, vs[0]);
      TasksStay(o, m, vs);
      TasksStay(o, m', vs[1..]);
      var first := OneMove(o, carriers, m, h, vs[0]);
      var rest := HollowRun(o, carriers, m', Last(o, h, first), vs[1..]);
      RunsConcat(o, h, first, rest);
      TraceConcat(o, h, first, rest);
      OnlyCarryConcat(first, rest, carriers);
      us := first + rest;
    }
  }

  lemma EmptyIsSame(carriers: set<nat>, m: Memory)
    requires m.core.tasks == [] && Sized(m) && m.tokens == [] && m.client == NOTHING
    requires forall p :: 0 <= p < |m.hist| ==> m.hist[p].view == NOTHING
    ensures Same(carriers, m, m)
  {
    assert HollowView(carriers, NOTHING) == NOTHING;
  }

  /** From a new runtime on, for every run. */
  lemma HollowFromBoot(o: Orders, vs: seq<Move>) returns (carriers: set<nat>, us: seq<Move>)
    requires Runs(o, BOOT, vs) && forall v :: v in vs ==> HarmlessMove(v)
    ensures Runs(o, BOOT, us) && OnlyCarry(us, carriers) && AreUncounted(carriers, Last(o, BOOT, vs).core.tasks)
    ensures Same(carriers, Last(o, BOOT, vs), Last(o, BOOT, us)) && Trace(o, BOOT, us) == Trace(o, BOOT, vs)
  {
    var ts := Last(o, BOOT, vs).core.tasks;
    carriers := set i: nat | i < |ts| && !ts[i].counted;
    EmptyIsSame(carriers, BOOT);
    us := HollowRun(o, carriers, BOOT, BOOT, vs);
  }
}
