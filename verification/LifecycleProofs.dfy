/** Start-up safety, handle accounting and teardown order, over all interleavings. */
module LifecycleProofs {
  import opened Lifecycle
  import opened Teardown

  lemma {:induction false} CountSame(r: Role, ws: seq<Worker>, ws': seq<Worker>, n: nat)
    requires n <= |ws| && n <= |ws'|
    requires forall i :: 0 <= i < n ==> Plays(r, ws[i]) == Plays(r, ws'[i])
    ensures Count(r, ws, n) == Count(r, ws', n)
  {
    if n > 0 {
      CountSame(r, ws, ws', n - 1);
    }
  }

  lemma {:induction false} CountUpdate(r: Role, ws: seq<Worker>, i: nat, w: Worker, n: nat := |ws|)
    requires i < n <= |ws|
    ensures Count(r, ws[i := w], n) + Bit(Plays(r, ws[i])) == Count(r, ws, n) + Bit(Plays(r, w))
    ensures Count(r, ws, n) >= Bit(Plays(r, ws[i]))
  {
    if i == n - 1 {
      CountSame(r, ws[i := w], ws, i);
    } else {
      CountUpdate(r, ws, i, w, n - 1);
    }
  }

  lemma CountAppend(r: Role, ws: seq<Worker>, w: Worker)
    ensures Count(r, ws + [w]) == Count(r, ws) + Bit(Plays(r, w))
  {
    CountSame(r, ws + [w], ws, |ws|);
  }

  lemma {:induction false} CountNone(r: Role, ws: seq<Worker>, n: nat := |ws|)
    requires n <= |ws| && forall i :: 0 <= i < n ==> !Plays(r, ws[i])
    ensures Count(r, ws, n) == 0
  {
    if n > 0 {
      CountNone(r, ws, n - 1);
    }
  }

  lemma InitialIsGood(flavour: Flavour, own: Spawner)
    ensures Good(Initial(flavour, own))
  {
  }

  /** Stopped workers hold nothing. */
  lemma NoneHold(s: State)
    requires Orderly(s) && forall i :: 0 <= i < |s.workers| ==> Ended(s.workers[i])
    ensures Count(Referring, s.workers) == 0 && Count(LockHolding, s.workers) == 0 && Count(Guarded, s.workers) == 0
  {
    CountNone(Referring, s.workers);
    CountNone(LockHolding, s.workers);
    CountNone(Guarded, s.workers);
  }

  /** Without a pool there are no workers left to hold anything. */
  lemma NoneHoldOutside(s: State)
    requires Orderly(s)
    requires !PoolWorks(s) || forall i :: 0 <= i < |s.workers| ==> Ended(s.workers[i])
    ensures Count(Referring, s.workers) == 0 && Count(LockHolding, s.workers) == 0 && Count(Guarded, s.workers) == 0
  {
    forall i | 0 <= i < |s.workers| ensures Ended(s.workers[i]) {
      assert OrderlyWorker(s, s.workers[i]);
    }
    NoneHold(s);
  }

  // ---------------------------------------------------------------- the owning thread

  lemma BuildKeeps(s: State)
    requires Good(s) && Enabled(s, Main) && !s.stage.Closing?
    ensures Balanced(MainNext(s)) && CellFits(MainNext(s)) && Staged(MainNext(s)) && Served(MainNext(s))
  {
    if !PoolWorks(s) {
      NoneHoldOutside(s);
    }
  }

  /** The head of the list goes; what is held is the rest. */
  lemma CompleteTail(s: State, s': State, todo: seq<Resource>)
    requires todo != [] && Complete(s, todo)
    requires forall r: Resource :: Held(s', r) <==> Held(s, r) && r != todo[0]
    ensures Complete(s', todo[1..])
  {
    forall r: Resource ensures r in todo[1..] <==> Held(s', r) {
      assert todo == [todo[0]] + todo[1..];
      assert r in todo <==> Held(s, r);
    }
  }

  lemma PendingTail(s: State, s': State)
    requires s.stage.Closing? && s.stage.todo != [] && Pending(s, s.stage.todo) && Ordered(s.stage.todo)
    requires s'.stage == Closing(s.stage.todo[1..])
    requires forall r: Resource :: Held(s', r) <==> Held(s, r) && r != s.stage.todo[0]
    requires (s'.pool == Serving || s'.pool == Dropped) && (s'.background == Active || s'.background == Joined)
    ensures Staged(s')
  {
    CompleteTail(s, s', s.stage.todo);
  }

  /** When the background thread is next, nothing is held any more that needs it. */
  lemma BackgroundIsLast(s: State)
    requires s.stage.Closing? && s.stage.todo != [] && Pending(s, s.stage.todo) && Ordered(s.stage.todo)
    requires s.stage.todo[0] == Background
    ensures s.pool == Dropped && s.guards == {} && !s.locals
  {
    var todo := s.stage.todo;
    assert todo == [Background] + todo[1..];
    assert Pool in todo <==> Held(s, Pool);
    assert LocalTasks in todo <==> Held(s, LocalTasks);
    forall g ensures g !in s.guards {
      assert Guarding(g) in todo <==> Held(s, Guarding(g));
    }
  }

  lemma CellIsAfterPool(s: State)
    requires s.stage.Closing? && s.stage.todo != [] && Pending(s, s.stage.todo) && Ordered(s.stage.todo)
    requires s.stage.todo[0] == CellRef
    ensures s.pool == Dropped && s.owns
  {
    var todo := s.stage.todo;
    assert todo == [CellRef] + todo[1..];
    assert Pool in todo <==> Held(s, Pool);
    assert Held(s, CellRef);
  }

  lemma DropKeepsStage(s: State)
    requires Good(s) && Enabled(s, Main) && s.stage.Closing?
    ensures Staged(MainNext(s))
  {
    var todo, s' := s.stage.todo, MainNext(s);
    assert todo == [todo[0]] + todo[1..];
    assert Held(s, todo[0]);
    if s'.background == Signalled {
      forall r: Resource ensures r in todo <==> Held(s', r) {
        assert r in todo <==> Held(s, r);
      }
    } else {
      DropLeaves(s);
      PendingTail(s, s');
    }
  }

  lemma DropLeaves(s: State)
    requires s.stage.Closing? && s.stage.todo != [] && Held(s, s.stage.todo[0])
    requires MainNext(s).background != Signalled
    ensures MainNext(s).stage == Closing(s.stage.todo[1..])
    ensures forall r: Resource :: Held(MainNext(s), r) <==> Held(s, r) && r != s.stage.todo[0]
  {
  }

  lemma DropKeepsServed(s: State)
    requires Good(s) && Enabled(s, Main) && s.stage.Closing?
    ensures Served(MainNext(s))
  {
    if s.stage.todo[0] == Background {
      BackgroundIsLast(s);
    } else if s.stage.todo[0] == CellRef {
      CellIsAfterPool(s);
    }
  }

  lemma DropKeepsBalance(s: State)
    requires Good(s) && Enabled(s, Main) && s.stage.Closing?
    ensures Balanced(MainNext(s))
  {
    DropFacts(s);
    DropCounts(s);
  }

  lemma DropKeepsCell(s: State)
    requires Good(s) && Enabled(s, Main) && s.stage.Closing?
    ensures CellFits(MainNext(s))
  {
    DropFacts(s);
    DropCounts(s);
  }

  lemma DropFacts(s: State)
    requires Good(s) && Enabled(s, Main) && s.stage.Closing?
    ensures Held(s, s.stage.todo[0])
    ensures s.stage.todo[0] == CellRef ==> s.pool == Dropped && s.owns
  {
    assert s.stage.todo[0] in s.stage.todo;
    if s.stage.todo[0] == CellRef {
      CellIsAfterPool(s);
    }
  }

  lemma DropCounts(s: State)
    requires Good(s) && Enabled(s, Main) && s.stage.Closing?
    ensures s.stage.todo[0] == Pool || s.pool == Dropped ==>
              Count(Referring, s.workers) == 0 && Count(LockHolding, s.workers) == 0 && Count(Guarded, s.workers) == 0
  {
    if s.stage.todo[0] == Pool || s.pool == Dropped {
      NoneHoldOutside(s);
    }
  }

  lemma OrderlyFrom(s: State, s': State)
    requires Orderly(s) && s'.own == s.own && |s.workers| <= |s'.workers|
    requires PoolWorks(s) ==> PoolWorks(s') || forall i :: 0 <= i < |s.workers| ==> Ended(s.workers[i])
    requires s.stage.Ready? || s.stage.Closing? ==> s'.stage.Ready? || s'.stage.Closing?
    requires forall j :: 0 <= j < |s'.workers| ==>
               (j < |s.workers| && s'.workers[j] == s.workers[j]) || (OrderlyWorker(s, s'.workers[j]) && PoolWorks(s'))
    ensures Orderly(s')
  {
    forall j | 0 <= j < |s'.workers| ensures OrderlyWorker(s', s'.workers[j]) {
      if j < |s.workers| && s'.workers[j] == s.workers[j] {
        assert OrderlyWorker(s, s.workers[j]);
      }
    }
  }

  lemma BuildMoves(s: State)
    requires Enabled(s, Main) && !s.stage.Closing?
    ensures var s' := MainNext(s);
            && s'.workers == s.workers && s'.own == s.own
            && (PoolWorks(s) ==> PoolWorks(s') || forall i :: 0 <= i < |s.workers| ==> Ended(s.workers[i]))
            && (s.stage.Closing? ==> s'.stage.Closing?)
  {
  }

  lemma DropMoves(s: State)
    requires Enabled(s, Main) && s.stage.Closing?
    ensures var s' := MainNext(s);
            && s'.workers == s.workers && s'.own == s.own
            && (PoolWorks(s) ==> PoolWorks(s') || forall i :: 0 <= i < |s.workers| ==> Ended(s.workers[i]))
            && (s.stage.Closing? ==> s'.stage.Closing?)
  {
  }

  lemma MainOrderly(s: State)
    requires Good(s) && Enabled(s, Main)
    ensures Orderly(MainNext(s))
  {
    if s.stage.Closing? {
      DropMoves(s);
    } else {
      BuildMoves(s);
    }
    OrderlyFrom(s, MainNext(s));
  }

  // ---------------------------------------------------------------- workers and clients

  predicate Referred(s: State, w: Worker) {
    (w.Stopped? || s.strong >= 1) && (s.flavour == ThreadPool && w.Cloned? ==> s.strong >= 2)
  }

  /** A worker's reference to the cell is never the last. */
  lemma OwnerStillRefers(s: State, i: nat)
    requires Balanced(s) && CellFits(s) && Served(s) && i < |s.workers| && OrderlyWorker(s, s.workers[i])
    ensures Referred(s, s.workers[i])
  {
    CountUpdate(Referring, s.workers, i, Stopped);
  }

  lemma WorkReferences(s: State, i: nat)
    requires ReferencesAddUp(s) && CellFits(s) && i < |s.workers| && OrderlyWorker(s, s.workers[i]) && Referred(s, s.workers[i])
    requires CanMove(s.flavour, s.workers[i], s.lock)
    ensures ReferencesAddUp(WorkNext(s, i))
  {
    CountUpdate(Referring, s.workers, i, WorkNext(s, i).workers[i]);
  }

  lemma WorkChanges(s: State, i: nat)
    requires CellFits(s) && i < |s.workers| && OrderlyWorker(s, s.workers[i]) && Referred(s, s.workers[i])
    requires CanMove(s.flavour, s.workers[i], s.lock) && (s.workers[i].Installed? ==> s.handles > 0)
    ensures var s' := WorkNext(s, i);
            && s'.cell == s.cell && s'.pool == s.pool && s'.executors == s.executors && s'.guards == s.guards
            && |s'.workers| == |s.workers| && s'.workers == s.workers[i := s'.workers[i]]
            && s'.handles + Bit(Plays(Guarded, s.workers[i])) == s.handles + Bit(Plays(Guarded, s'.workers[i]))
  {
  }

  lemma WorkHandles(s: State, i: nat)
    requires HandlesAddUp(s) && CellFits(s) && i < |s.workers| && OrderlyWorker(s, s.workers[i]) && Referred(s, s.workers[i])
    requires CanMove(s.flavour, s.workers[i], s.lock)
    ensures HandlesAddUp(WorkNext(s, i))
  {
    CountUpdate(Guarded, s.workers, i, Stopped);
    WorkChanges(s, i);
    CountUpdate(Guarded, s.workers, i, WorkNext(s, i).workers[i]);
  }

  lemma WorkLock(s: State, i: nat)
    requires LockAddsUp(s) && CellFits(s) && i < |s.workers| && OrderlyWorker(s, s.workers[i]) && Referred(s, s.workers[i])
    requires CanMove(s.flavour, s.workers[i], s.lock)
    ensures LockAddsUp(WorkNext(s, i))
  {
    CountUpdate(LockHolding, s.workers, i, WorkNext(s, i).workers[i]);
  }

  lemma WorkKeepsCell(s: State, i: nat)
    requires Balanced(s) && CellFits(s) && Served(s) && i < |s.workers| && OrderlyWorker(s, s.workers[i])
    requires CanMove(s.flavour, s.workers[i], s.lock)
    ensures CellFits(WorkNext(s, i))
  {
    OwnerStillRefers(s, i);
    CountUpdate(LockHolding, s.workers, i, WorkNext(s, i).workers[i]);
  }

  lemma WorkerOrderly(s: State, i: nat)
    requires Balanced(s) && CellFits(s) && Served(s) && i < |s.workers| && OrderlyWorker(s, s.workers[i])
    requires CanMove(s.flavour, s.workers[i], s.lock)
    ensures SameOwner(s, WorkNext(s, i))
    ensures WorkNext(s, i).workers == s.workers[i := WorkNext(s, i).workers[i]]
    ensures OrderlyWorker(s, WorkNext(s, i).workers[i])
    ensures WorkerSteps(WorkNext(s, i).workers[i]) < WorkerSteps(s.workers[i])
  {
    OwnerStillRefers(s, i);
  }

  /** The owning thread and the client have done nothing. */
  predicate SameOwner(s: State, s': State) {
    && s'.flavour == s.flavour && s'.own == s.own && s'.stage == s.stage && s'.background == s.background
    && s'.pool == s.pool && s'.owns == s.owns && s'.guards == s.guards && s'.locals == s.locals
  }

  lemma SameOwnerKeeps(s: State, s': State)
    requires Staged(s) && Served(s) && SameOwner(s, s')
    ensures Staged(s') && Served(s')
  {
    if s.stage.Closing? {
      forall r: Resource ensures r in s.stage.todo <==> Held(s', r) {
        assert r in s.stage.todo <==> Held(s, r);
      }
    }
  }

  lemma StartKeeps(s: State)
    requires Good(s) && Enabled(s, Start)
    ensures Good(Next(s, Start))
  {
    CountAppend(Referring, s.workers, Starting);
    CountAppend(LockHolding, s.workers, Starting);
    CountAppend(Guarded, s.workers, Starting);
    SameOwnerKeeps(s, Next(s, Start));
    OrderlyFrom(s, Next(s, Start));
  }

  lemma WorkKeeps(s: State, i: nat)
    requires Good(s) && Enabled(s, Work(i))
    ensures Good(Next(s, Work(i)))
  {
    assert OrderlyWorker(s, s.workers[i]);
    OwnerStillRefers(s, i);
    WorkReferences(s, i);
    WorkHandles(s, i);
    WorkLock(s, i);
    WorkKeepsCell(s, i);
    WorkerOrderly(s, i);
    SameOwnerKeeps(s, WorkNext(s, i));
    OrderlyFrom(s, WorkNext(s, i));
  }

  lemma ClientKeeps(s: State, l: Label)
    requires Good(s) && Enabled(s, l) && (l.Hand? || l.Return? || l.DropCallback?)
    ensures Good(Next(s, l))
  {
    SameOwnerKeeps(s, Next(s, l));
    OrderlyFrom(s, Next(s, l));
  }

  lemma OwnerKeeps(s: State, l: Label)
    requires Good(s) && Enabled(s, l) && (l.SetDefaults? || l.ResetDefaults? || (l.Close? && Ordered(l.todo)))
    ensures Good(Next(s, l))
  {
    var s' := Next(s, l);
    if l.Close? {
      forall r: Resource ensures r in l.todo <==> Held(s', r) {
        assert r in l.todo <==> Held(s, r);
      }
    }
    OrderlyFrom(s, s');
  }

  lemma GoodStep(s: State, l: Label)
    requires Good(s) && Enabled(s, l) && (l.Close? ==> Ordered(l.todo))
    ensures Good(Next(s, l))
  {
    match l {
      case Main =>
        if s.stage.Closing? {
          DropKeepsStage(s);
          DropKeepsServed(s);
          DropKeepsBalance(s);
          DropKeepsCell(s);
        } else {
          BuildKeeps(s);
        }
        MainOrderly(s);
      case Start => StartKeeps(s);
      case Work(i) => WorkKeeps(s, i);
      case Hand => ClientKeeps(s, l);
      case Return => ClientKeeps(s, l);
      case DropCallback => ClientKeeps(s, l);
      case _ => OwnerKeeps(s, l);
    }
  }

  ghost predicate Runs(s: State, ls: seq<Label>)
    decreases |ls|
  {
    ls == [] || (Enabled(s, ls[0]) && Runs(Next(s, ls[0]), ls[1..]))
  }

  ghost function Final(s: State, ls: seq<Label>): State
    requires Runs(s, ls)
    decreases |ls|
  {
    if ls == [] then s else Final(Next(s, ls[0]), ls[1..])
  }

  /** Whenever the owner lets go, it does so in an order that is safe. */
  predicate AllOrdered(ls: seq<Label>) {
    forall i :: 0 <= i < |ls| && ls[i].Close? ==> Ordered(ls[i].todo)
  }

  lemma {:induction false} GoodRun(s: State, ls: seq<Label>)
    requires Good(s) && Runs(s, ls) && AllOrdered(ls)
    ensures Good(Final(s, ls))
    decreases |ls|
  {
    if ls != [] {
      GoodStep(s, ls[0]);
      assert AllOrdered(ls[1..]);
      GoodRun(Next(s, ls[0]), ls[1..]);
    }
  }

  lemma {:induction false} SameRuntime(s: State, ls: seq<Label>)
    requires Runs(s, ls)
    ensures Final(s, ls).flavour == s.flavour && Final(s, ls).own == s.own
    decreases |ls|
  {
    if ls != [] {
      SameRuntime(Next(s, ls[0]), ls[1..]);
    }
  }

  /** Steps of the pool and its workers, and of clients that hold handles, and those in `may`. */
  predicate By(l: Label, may: set<Label>) {
    l.Start? || l.Work? || l.Hand? || l.Return? || l in may
  }

  ghost predicate IsLife(s: State, ls: seq<Label>, s': State, may: set<Label>) {
    Runs(s, ls) && Final(s, ls) == s' && forall i :: 0 <= i < |ls| ==> By(ls[i], may)
  }

  /** Nothing but such steps leads from one state to the other. */
  ghost predicate Lives(s: State, s': State, may: set<Label>) {
    exists ls :: IsLife(s, ls, s', may)
  }

  lemma Stays(s: State, may: set<Label>)
    ensures Lives(s, s, may)
  {
    assert IsLife(s, [], s, may);
  }

  lemma {:induction false} LifeGoesOn(s: State, ls: seq<Label>, s': State, l: Label, may: set<Label>)
    requires IsLife(s, ls, s', may) && Enabled(s', l) && By(l, may)
    ensures IsLife(s, ls + [l], Next(s', l), may)
    decreases |ls|
  {
    if ls == [] {
      assert ls + [l] == [l] && [l][1..] == [];
    } else {
      assert (ls + [l])[1..] == ls[1..] + [l];
      assert forall i :: 0 <= i < |ls[1..]| ==> ls[1..][i] == ls[i + 1];
      LifeGoesOn(Next(s, ls[0]), ls[1..], s', l, may);
    }
  }

  lemma Step(s: State, s': State, l: Label, may: set<Label>)
    requires Lives(s, s', may) && Enabled(s', l) && By(l, may)
    ensures Lives(s, Next(s', l), may)
  {
    var ls :| IsLife(s, ls, s', may);
    LifeGoesOn(s, ls, s', l, may);
  }

  lemma {:induction false} LivesConcat(s: State, ls: seq<Label>, s': State, ls': seq<Label>, s'': State, may: set<Label>)
    requires IsLife(s, ls, s', may) && IsLife(s', ls', s'', may)
    ensures Lives(s, s'', may)
    decreases |ls'|
  {
    if ls' == [] {
    } else {
      LifeGoesOn(s, ls, s', ls'[0], may);
      assert forall i :: 0 <= i < |ls'[1..]| ==> ls'[1..][i] == ls'[i + 1];
      assert IsLife(Next(s', ls'[0]), ls'[1..], s'', may);
      LivesConcat(s, ls + [ls'[0]], Next(s', ls'[0]), ls'[1..], s'', may);
    }
  }

  lemma LivesOn(s: State, s': State, s'': State, first: set<Label>, second: set<Label>, may: set<Label>)
    requires Lives(s, s', first) && Lives(s', s'', second) && first <= may && second <= may
    ensures Lives(s, s'', may)
  {
    var ls :| IsLife(s, ls, s', first);
    var ls' :| IsLife(s', ls', s'', second);
    assert IsLife(s, ls, s', may) && IsLife(s', ls', s'', may);
    LivesConcat(s, ls, s', ls', s'', may);
  }

  function WorkerSteps(w: Worker): nat {
    match w
    case Starting => 5 case Upgraded => 4 case Locking => 3 case Cloned(_) => 2 case Installed(_) => 1
    case Stopped => 0 case Panicked => 0
  }

  function WorkersSteps(ws: seq<Worker>, n: nat := |ws|): nat
    requires n <= |ws|
  {
    if n == 0 then 0 else WorkersSteps(ws, n - 1) + WorkerSteps(ws[n - 1])
  }

  lemma {:induction false} WorkersStepsUpdate(ws: seq<Worker>, i: nat, w: Worker, n: nat := |ws|)
    requires n <= |ws| && i < |ws|
    ensures WorkersSteps(ws[i := w], n) ==
              WorkersSteps(ws, n) + if i < n then WorkerSteps(w) - WorkerSteps(ws[i]) else 0
  {
    if n > 0 {
      WorkersStepsUpdate(ws, i, w, n - 1);
    }
  }

  lemma {:induction false} WorkersStepsPrefix(ws: seq<Worker>, w: Worker, n: nat)
    requires n <= |ws|
    ensures WorkersSteps(ws + [w], n) == WorkersSteps(ws, n)
  {
    if n > 0 {
      WorkersStepsPrefix(ws, w, n - 1);
    }
  }

  // ---------------------------------------------------------------- theorems

  predicate IsRoute(todo: seq<Resource>) {
    exists route: Route :: todo == TeardownOf(route)
  }

  /** The owner lets go in one of the ways the code has. */
  predicate Coded(ls: seq<Label>) {
    forall i :: 0 <= i < |ls| && ls[i].Close? ==> IsRoute(ls[i].todo)
  }

  lemma CodedIsOrdered(ls: seq<Label>)
    requires Coded(ls)
    ensures AllOrdered(ls)
  {
    forall i | 0 <= i < |ls| && ls[i].Close? ensures Ordered(ls[i].todo) {
      var route: Route :| ls[i].todo == TeardownOf(route);
      RoutesAreOrdered(route);
    }
  }

  lemma Reachable(flavour: Flavour, own: Spawner, ls: seq<Label>)
    requires Runs(Initial(flavour, own), ls) && Coded(ls)
    ensures var s := Final(Initial(flavour, own), ls); Good(s) && s.flavour == flavour && s.own == own
  {
    CodedIsOrdered(ls);
    InitialIsGood(flavour, own);
    GoodRun(Initial(flavour, own), ls);
    SameRuntime(Initial(flavour, own), ls);
  }

  /** In every reachable state of either builder: no worker has panicked; a worker that has not
      stopped finds the cell alive and the background thread running; none has got past the
      read lock before the spawner was set; and each installs this runtime's spawner. */
  lemma StartUpIsSafe(flavour: Flavour, own: Spawner, ls: seq<Label>, i: nat)
    requires Runs(Initial(flavour, own), ls) && Coded(ls) && i < |Final(Initial(flavour, own), ls).workers|
    ensures WorkerIsSafe(Final(Initial(flavour, own), ls), i) && Final(Initial(flavour, own), ls).own == own
  {
    Reachable(flavour, own, ls);
    StartUpFacts(Final(Initial(flavour, own), ls), i);
  }

  predicate WorkerIsSafe(s: State, i: nat)
    requires i < |s.workers|
  {
    var w := s.workers[i];
    && !w.Panicked?
    && (!w.Stopped? ==> s.cell.Alive? && s.background == Active)
    && (Plays(LockHolding, w) ==> s.cell == Alive(Holds(s.own)))
    && (Plays(Guarded, w) ==> w.spawner == s.own)
  }

  lemma StartUpFacts(s: State, i: nat)
    requires Good(s) && i < |s.workers|
    ensures WorkerIsSafe(s, i)
  {
    assert OrderlyWorker(s, s.workers[i]);
  }

  /** Each way of letting go suits a runtime and a moment. */
  predicate Suits(route: Route, s: State) {
    match route
    case ShutdownOnIdle => s.flavour == ThreadPool && s.guards == ALL_GUARDS
    case RefusedShutdown => s.flavour == ThreadPool && s.guards == {}
    case ShutdownNow => s.flavour == ThreadPool && s.guards == {}
    case DropPoolRuntime => s.flavour == ThreadPool && s.guards == {}
    case DropLocalRuntime => s.flavour == CurrentThread && s.guards == {}
  }

  /** Then it lets go of everything there is, and of each thing once. */
  lemma RouteFits(s: State, route: Route)
    requires Staged(s) && s.stage == Ready && Suits(route, s)
    ensures Complete(s, TeardownOf(route)) && Ordered(TeardownOf(route))
  {
    RoutesAreOrdered(route);
    forall r: Resource ensures r in TeardownOf(route) <==> Held(s, r) {
      RouteHolds(route, r);
      if r.Guarding? {
        NoOtherGuards(r.guard);
      }
    }
  }

  lemma NoOtherGuards(g: Guard)
    ensures g in ALL_GUARDS
  {
    match g
    case TimerGuard =>
    case ReactorGuard =>
    case ExecutorGuard =>
  }

  /** The steps of the owning thread and of the workers; letting go is a step the owner can take. */
  predicate Own(l: Label) {
    l.Main? || l.Work? || l.Close? || l.ResetDefaults?
  }

  /** No deadlock from start to finish: until everything is let go of and every worker has
      stopped, the owning thread or some worker can move, and both builders get past every lock. */
  lemma NeverStuck(s: State)
    requires Good(s)
    ensures (forall l: Label :: Own(l) ==> !Enabled(s, l)) <==>
            s.stage == Closing([]) && forall i :: 0 <= i < |s.workers| ==> s.workers[i].Stopped?
  {
    if forall l: Label :: Own(l) ==> !Enabled(s, l) {
      assert Own(Main) && Own(ResetDefaults) && forall i :: Own(Work(i));
      if !s.stage.Closing? {
        OwnerCanGoOn(s);
      }
      NoneWaits(s);
    }
  }

  lemma OwnerCanGoOn(s: State)
    requires Staged(s) && !s.stage.Closing?
    ensures exists l: Label :: Own(l) && Enabled(s, l)
  {
    if s.stage != Ready {
      assert Own(Main) && Enabled(s, Main);
    } else if s.guards == ALL_GUARDS {
      assert Own(ResetDefaults) && Enabled(s, ResetDefaults);
    } else {
      var route := if s.flavour == ThreadPool then DropPoolRuntime else DropLocalRuntime;
      RouteFits(s, route);
      assert Own(Close(TeardownOf(route))) && Enabled(s, Close(TeardownOf(route)));
    }
  }

  lemma NoneWaits(s: State)
    requires Good(s) && s.stage.Closing? && !Enabled(s, Main)
    requires forall i :: 0 <= i < |s.workers| ==> !Enabled(s, Work(i))
    ensures s.stage.todo == [] && forall i :: 0 <= i < |s.workers| ==> s.workers[i].Stopped?
  {
    forall i | 0 <= i < |s.workers| ensures Ended(s.workers[i]) && s.workers[i].Stopped? {
      assert OrderlyWorker(s, s.workers[i]) && !Enabled(s, Work(i));
    }
  }

  function StageSteps(stage: Stage, background: ThreadState): nat {
    match stage
    case Begin => 5 case BackgroundUp => 4 case Locked => 3 case PoolUp => 2 case CellSet => 1 case Ready => 0
    case Closing(todo) => if todo != [] && background == Signalled then 2 * |todo| - 1 else 2 * |todo|
  }

  function Steps(s: State): nat {
    StageSteps(s.stage, s.background) + WorkersSteps(s.workers)
  }

  /** How many steps of the owning thread and the workers a run has, how many worker starts, and
      how much it is asked to let go of. */
  function Moves(ls: seq<Label>): nat {
    if ls == [] then 0 else Bit(ls[0].Main? || ls[0].Work?) + Moves(ls[1..])
  }

  function Starts(ls: seq<Label>): nat {
    if ls == [] then 0 else Bit(ls[0].Start?) + Starts(ls[1..])
  }

  function Asked(l: Label): nat {
    if l.Close? then 2 * |l.todo| else 0
  }

  function AllAsked(ls: seq<Label>): nat {
    if ls == [] then 0 else Asked(ls[0]) + AllAsked(ls[1..])
  }

  lemma StepsStep(s: State, l: Label)
    requires Good(s) && Enabled(s, l)
    ensures Bit(l.Main? || l.Work?) + Steps(Next(s, l)) <= Steps(s) + 5 * Bit(l.Start?) + Asked(l)
  {
    if l.Work? {
      assert OrderlyWorker(s, s.workers[l.i]);
      WorkerOrderly(s, l.i);
      WorkersStepsUpdate(s.workers, l.i, WorkNext(s, l.i).workers[l.i]);
    } else if l.Main? {
      MainSteps(s);
    } else if l.Start? {
      WorkersStepsPrefix(s.workers, Starting, |s.workers|);
    }
  }

  lemma MainSteps(s: State)
    requires Staged(s) && Enabled(s, Main)
    ensures MainNext(s).workers == s.workers
    ensures StageSteps(MainNext(s).stage, MainNext(s).background) < StageSteps(s.stage, s.background)
  {
    if s.stage.Closing? {
      assert s.stage.todo[0] in s.stage.todo;
      assert Held(s, s.stage.todo[0]);
    }
  }

  lemma {:induction false} MovesAreBounded(s: State, ls: seq<Label>)
    requires Good(s) && Runs(s, ls) && AllOrdered(ls)
    ensures Moves(ls) + Steps(Final(s, ls)) <= Steps(s) + 5 * Starts(ls) + AllAsked(ls)
    decreases |ls|
  {
    if ls != [] {
      GoodStep(s, ls[0]);
      StepsStep(s, ls[0]);
      assert AllOrdered(ls[1..]);
      MovesAreBounded(Next(s, ls[0]), ls[1..]);
    }
  }

  /** The owner begins to let go only once. */
  lemma {:induction false} AskedOnce(s: State, ls: seq<Label>)
    requires Runs(s, ls) && Coded(ls)
    ensures AllAsked(ls) <= if s.stage.Closing? then 0 else 12
    decreases |ls|
  {
    if ls != [] {
      StaysClosing(s, ls[0]);
      if ls[0].Close? {
        var route: Route :| ls[0].todo == TeardownOf(route);
        RouteOrder(route);
      }
      assert Coded(ls[1..]);
      AskedOnce(Next(s, ls[0]), ls[1..]);
    }
  }

  lemma StaysClosing(s: State, l: Label)
    requires Enabled(s, l)
    ensures s.stage.Closing? ==> Next(s, l).stage.Closing? && !l.Close?
    ensures l.Close? ==> Next(s, l).stage.Closing?
  {
  }

  /** Building and tearing down take boundedly many steps under every schedule: five per worker
      started, five to build, and at most twelve to let go of everything. */
  lemma LifeIsBounded(s: State, ls: seq<Label>)
    requires Good(s) && Runs(s, ls) && Coded(ls)
    ensures Moves(ls) + Steps(Final(s, ls)) <= Steps(s) + 5 * Starts(ls) + 12
  {
    CodedIsOrdered(ls);
    MovesAreBounded(s, ls);
    AskedOnce(s, ls);
  }

  function ThreadRank(t: ThreadState): nat {
    match t case NotStarted => 0 case Active => 1 case Signalled => 2 case Joined => 3
  }

  function PoolRank(p: PoolState): nat {
    match p case Unbuilt => 0 case Building => 1 case Serving => 2 case Dropped => 3
  }

  function CellRank(c: Cell): nat {
    match c case Unallocated => 0 case Alive(Empty) => 1 case Alive(Holds(_)) => 2 case Freed => 3
  }

  function WorkerRank(w: Worker): nat {
    match w
    case Starting => 0 case Upgraded => 1 case Locking => 2 case Cloned(_) => 3 case Installed(_) => 4
    case Stopped => 5 case Panicked => 6
  }

  predicate LetsGo(s: State, l: Label, r: Resource) {
    l.Main? && s.stage.Closing? && s.stage.todo != [] && s.stage.todo[0] == r
  }

  /** Nothing is skipped and nothing comes back. The background thread is started, told to stop
      and only then joined; the pool is built, serves and is dropped; the cell is filled before it
      is freed; a worker upgrades before it locks, and clones under the lock. Handles are given
      out and returned one at a time, and a guard goes when it is reset or its turn has come. */
  lemma PartsMoveOn(s: State, l: Label)
    requires Good(s) && Enabled(s, l) && (l.Close? ==> Ordered(l.todo))
    ensures var s' := Next(s, l);
            && ThreadRank(s.background) <= ThreadRank(s'.background) <= ThreadRank(s.background) + 1
            && PoolRank(s.pool) <= PoolRank(s'.pool) <= PoolRank(s.pool) + 1
            && CellRank(s.cell) <= CellRank(s'.cell) <= CellRank(s.cell) + 1
            && s'.executors == s.executors + Bit(l.Hand?) - Bit(l.Return?)
            && (s.callback && !s'.callback <==> l.DropCallback?)
            && (if l.SetDefaults? then s'.guards == ALL_GUARDS else if l.ResetDefaults? then s'.guards == {}
                else forall g :: g in s'.guards <==> g in s.guards && !LetsGo(s, l, Guarding(g)))
            && |s.workers| <= |s'.workers|
            && (l.Start? ==> s'.workers == s.workers + [Starting])
            && (!l.Start? ==> |s'.workers| == |s.workers|)
            && forall i :: 0 <= i < |s.workers| ==>
                 if l == Work(i) then WorkerMovesOn(s.flavour, s.workers[i], s'.workers[i]) else s'.workers[i] == s.workers[i]
  {
    if l.Main? {
      MainPartsMoveOn(s);
    } else if l.Work? {
      WorkPartsMoveOn(s, l.i);
    }
  }

  lemma WorkPartsMoveOn(s: State, i: nat)
    requires Good(s) && Enabled(s, Work(i))
    ensures var s' := WorkNext(s, i);
            && SameOwner(s, s') && s'.cell == s.cell && s'.workers == s.workers[i := s'.workers[i]]
            && WorkerMovesOn(s.flavour, s.workers[i], s'.workers[i])
  {
    assert OrderlyWorker(s, s.workers[i]);
    OwnerStillRefers(s, i);
    WorkerOrderly(s, i);
    CountUpdate(Guarded, s.workers, i, Stopped);
    WorkChanges(s, i);
  }

  /** The current-thread builder's hook has its own reference: it need not upgrade. */
  predicate WorkerMovesOn(flavour: Flavour, w: Worker, w': Worker) {
    if flavour == CurrentThread && w == Starting then w' == Locking else !w'.Panicked? && WorkerRank(w') == WorkerRank(w) + 1
  }

  lemma MainPartsMoveOn(s: State)
    requires Good(s) && Enabled(s, Main)
    ensures var s' := MainNext(s);
            && ThreadRank(s.background) <= ThreadRank(s'.background) <= ThreadRank(s.background) + 1
            && PoolRank(s.pool) <= PoolRank(s'.pool) <= PoolRank(s.pool) + 1
            && CellRank(s.cell) <= CellRank(s'.cell) <= CellRank(s.cell) + 1
            && s'.workers == s.workers && s'.executors == s.executors && (s.callback ==> s'.callback)
            && forall g :: g in s'.guards <==> g in s.guards && !LetsGo(s, Main, Guarding(g))
  {
    if s.stage.Closing? {
      DropFacts(s);
      DropCounts(s);
    }
  }

  /** Once the owner has let go of everything, the handles left are those that clients still
      hold, and one more if and only if the current-thread builder's hook still holds the cell:
      the thread pool's weak reference lets the last handle go. */
  lemma HandlesReachZero(s: State)
    requires Good(s) && s.stage == Closing([])
    ensures s.handles == s.executors + Bit(s.flavour == CurrentThread && s.callback)
    ensures s.flavour == ThreadPool ==> s.cell == Freed && s.strong == 0
    ensures s.pool == Dropped && s.background == Joined && forall i :: 0 <= i < |s.workers| ==> s.workers[i].Stopped?
  {
    assert !Held(s, Pool) && !Held(s, CellRef) && !Held(s, Background) && !Held(s, Guarding(ExecutorGuard));
    forall i | 0 <= i < |s.workers| ensures Ended(s.workers[i]) && s.workers[i].Stopped? {
      assert OrderlyWorker(s, s.workers[i]);
    }
    NoneHold(s);
  }

  /** In every reachable state: whoever needs the background thread has it, and the pool's workers
      have the cell; so once the background thread is told to stop, the pool is dropped, no worker
      is in a hook or has guards, the owner has no guards, and the local tasks are gone. */
  lemma TeardownIsOrdered(flavour: Flavour, own: Spawner, ls: seq<Label>)
    requires Runs(Initial(flavour, own), ls) && Coded(ls)
    ensures var s := Final(Initial(flavour, own), ls);
            && (PoolWorks(s) ==> s.cell.Alive?)
            && (PoolWorks(s) || s.guards != {} || s.locals ==> s.background == Active)
            && (s.background == Signalled || s.background == Joined ==>
                  s.pool == Dropped && Count(Guarded, s.workers) == 0 && Count(InHook, s.workers) == 0)
            && (flavour == ThreadPool && s.cell == Freed ==> s.pool == Dropped)
  {
    Reachable(flavour, own, ls);
    TeardownFacts(Final(Initial(flavour, own), ls));
  }

  lemma TeardownFacts(s: State)
    requires Good(s)
    ensures PoolWorks(s) ==> s.cell.Alive?
    ensures s.background == Signalled || s.background == Joined ==>
              s.pool == Dropped && Count(Guarded, s.workers) == 0 && Count(InHook, s.workers) == 0
    ensures s.flavour == ThreadPool && s.cell == Freed ==> s.pool == Dropped
  {
    if !PoolWorks(s) {
      forall i | 0 <= i < |s.workers| ensures Ended(s.workers[i]) {
        assert OrderlyWorker(s, s.workers[i]);
      }
      NoneHold(s);
      CountNone(InHook, s.workers);
    }
  }
}
