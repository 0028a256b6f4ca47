/** The current-thread runtime: spawning, blocking and running on one tracker, and the entry
    points composed of them. */
module CurrentThread {
  import opened Programs
  import opened Protocol
  import opened Invariants
  import opened Completion
  import opened Interleaving
  import opened Liveness
  import opened Wrappers
  import T = Tracker

  /** How a call that blocks ends: it returns, a panic unwinds through it, or it blocks for ever. */
  datatype Ending = Returned | Unwound | Hangs

  // ---------------------------------------------------------------- what a call leaves

  ghost predicate SameTasks(ts: seq<Task>, ts': seq<Task>) {
    && |ts| <= |ts'|
    && forall i :: 0 <= i < |ts| ==>
         ts'[i].counted == ts[i].counted && ts'[i].path == ts[i].path && ts'[i].body == ts[i].body
  }

  lemma RunKeepsAll(s: State, ls: seq<Label>)
    requires Sound(s) && Runs(s, ls)
    ensures SameTasks(s.tasks, Final(s, ls).tasks)
  {
    if s.tasks == [] {
    } else {
      RunKeeps(s, ls, 0);
    }
    forall i | 0 <= i < |s.tasks|
      ensures var t, t' := s.tasks[i], Final(s, ls).tasks[i]; t'.counted == t.counted && t'.path == t.path && t'.body == t.body
    {
      RunKeeps(s, ls, i);
    }
  }

  /** What the steps of tasks and waiter, and of other threads, make of a runtime's prospects. */
  ghost predicate Settles(s: State, s': State, outside: seq<Label>) {
    && SameTasks(s.tasks, s'.tasks)
    && (Safe(s') ==> Safe(s))
    && (T.AllTame(outside) ==> (Sturdy(s') <==> Sturdy(s)))
    && (T.AllHarmless(outside) && Harmless(s) ==> Harmless(s'))
  }

  lemma RunSettles(s: State, ls: seq<Label>, outside: seq<Label>)
    requires Sound(s) && Runs(s, ls) && T.From(ls, outside)
    ensures Settles(s, Final(s, ls), outside)
  {
    RunKeepsAll(s, ls);
    T.CallIsDecided(s, ls, outside);
    if !Safe(s) {
      UnsafeForever(s, ls);
    }
  }

  lemma SettlesCall(s: State, s': State, outside: seq<Label>)
    requires Sound(s) && s.waiter == Outside && Settles(Next(s, Call), s', outside)
    ensures Settles(s, s', outside)
  {
    T.SameTasksSameFate(s, Next(s, Call));
  }

  /** What a new root does to a runtime's prospects. */
  lemma RootSettles(s: State, counted: bool, body: Prog)
    ensures var s' := Next(s, Root(counted, body));
            && SameTasks(s.tasks, s'.tasks)
            && (Safe(s') <==> Safe(s) && (counted ==> CountedTotal(body)))
            && (Sturdy(s') <==> Sturdy(s) && TreeTotal(body, counted))
            && (Harmless(s') <==> Harmless(s) && if counted then Separated(body) else HandleOnly(body))
  {
    var s' := Next(s, Root(counted, body));
    var n := |s.tasks|;
    assert forall i :: 0 <= i < n ==> s'.tasks[i] == s.tasks[i];
    assert SafeTask(s'.tasks[n]) <==> (counted ==> CountedTotal(body));
    assert SturdyTask(s'.tasks[n]) <==> TreeTotal(body, counted);
    assert HarmlessTask(s'.tasks[n]) <==> if counted then Separated(body) else HandleOnly(body);
  }

  // ---------------------------------------------------------------- the calls of a client

  /** `tokio_01::spawn` inside `enter` is a `SpawnCall`. `outside` is what other threads do while
      the call lasts. */
  datatype ApiCall =
    | SpawnCall(body: Prog)
    | HandleCall(body: Prog)
    | BlockOnCall(body: Prog, outside: seq<Label>)
    | RunCall(outside: seq<Label>)

  function Others(c: ApiCall): seq<Label> {
    match c
    case BlockOnCall(_, outside) => outside
    case RunCall(outside) => outside
    case _ => []
  }

  /** The future of `block_on` belongs to the caller alone: nobody else drops it, or anything, meanwhile. */
  predicate Proper(c: ApiCall) {
    T.AllForeign(Others(c)) && (c.BlockOnCall? ==> forall l :: l in c.outside ==> !l.Drop?)
  }

  /** What a call promises about how it ends, and about the tracker it leaves. */
  ghost predicate Fits(c: ApiCall, e: Ending, s: State, s': State) {
    match c
    case SpawnCall(body) => e == Returned && s' == Next(s, Root(true, body))
    case HandleCall(body) => e == Returned && s' == Next(s, Root(false, body))
    case BlockOnCall(body, outside) =>
      && (e == if Panics(body) then Unwound else Returned)
      && Settles(Next(s, Root(true, body)), s', outside) && T.Leads(Next(s, Root(true, body)), s', outside)
      && |s.tasks| < |s'.tasks| && (e == Returned <==> s'.tasks[|s.tasks|].phase.Done?)
    case RunCall(outside) =>
      && s.waiter == Outside && T.Leads(Next(s, Call), s', outside)
      && Settles(s, s', outside) && e != Unwound
      && (e == Returned ==> Safe(s) && s'.counter == 0 && T.AllDone(s'))
      && (e == Hangs ==> Sum(Lost, s'.tasks) > 0 && !(Sturdy(s) && T.AllTame(outside)))
  }

  /** The calls end one after the other; one that blocks for ever is the last. `states` are the
      tracker's, before the first call and after each. */
  ghost predicate Orderly(calls: seq<ApiCall>, endings: seq<Ending>, states: seq<State>) {
    && |states| == |endings| + 1
    && if calls == [] then endings == [] else
      && endings != [] && Fits(calls[0], endings[0], states[0], states[1])
      && if endings[0] == Hangs then |endings| == 1 else Orderly(calls[1..], endings[1..], states[1..])
  }

  lemma OrderlyCons(calls: seq<ApiCall>, e: Ending, rest: seq<Ending>, s: State, later: seq<State>)
    requires calls != [] && later != [] && Fits(calls[0], e, s, later[0])
    requires if e == Hangs then rest == [] && |later| == 1 else Orderly(calls[1..], rest, later)
    ensures Orderly(calls, [e] + rest, [s] + later)
  {
    assert ([e] + rest)[1..] == rest && ([s] + later)[1..] == later;
  }

  /** Calls that keep counted work out of uncounted tasks, while other threads bring no failures. */
  predicate Orthodox(c: ApiCall) {
    && (c.HandleCall? ==> HandleOnly(c.body))
    && (c.SpawnCall? || c.BlockOnCall? ==> Separated(c.body))
    && T.AllHarmless(Others(c)) && T.AllTame(Others(c))
  }

  /** How such calls end, told from the calls alone. `safe`: nothing counted is lost yet, or bound to be. */
  function Expected(calls: seq<ApiCall>, safe: bool): seq<Ending> {
    if calls == [] then [] else
      match calls[0]
      case SpawnCall(body) => [Returned] + Expected(calls[1..], safe && CountedTotal(body))
      case HandleCall(_) => [Returned] + Expected(calls[1..], safe)
      case BlockOnCall(body, _) =>
        [if Panics(body) then Unwound else Returned] + Expected(calls[1..], safe && CountedTotal(body))
      case RunCall(_) => if safe then [Returned] + Expected(calls[1..], safe) else [Hangs]
  }

  lemma OneIsExpected(c: ApiCall, e: Ending, s: State, s': State)
    requires Fits(c, e, s, s') && Harmless(s) && Orthodox(c)
    ensures Harmless(s') && (Safe(s') <==> Safe(s) && (c.SpawnCall? || c.BlockOnCall? ==> CountedTotal(c.body)))
    ensures c.RunCall? ==> (e == Returned <==> Safe(s)) && e != Unwound
  {
    match c {
      case SpawnCall(body) => RootSettles(s, true, body);
      case HandleCall(body) => RootSettles(s, false, body);
      case BlockOnCall(body, _) =>
        RootSettles(s, true, body);
        HarmlessSturdy(Next(s, Root(true, body)));
        HarmlessSturdy(s');
      case RunCall(_) =>
        HarmlessSturdy(s);
        HarmlessSturdy(s');
    }
  }

  /** No schedule has a say in how a client's calls end. */
  lemma {:induction false} SessionIsSettled(calls: seq<ApiCall>, endings: seq<Ending>, states: seq<State>)
    requires Orderly(calls, endings, states) && Harmless(states[0]) && forall c :: c in calls ==> Orthodox(c)
    ensures endings == Expected(calls, Safe(states[0]))
    decreases |calls|
  {
    if calls != [] {
      OneIsExpected(calls[0], endings[0], states[0], states[1]);
      if endings[0] != Hangs {
        SessionIsSettled(calls[1..], endings[1..], states[1..]);
        assert endings == [endings[0]] + endings[1..];
      } else {
        assert endings == [Hangs];
      }
    }
  }

  // ---------------------------------------------------------------- the runtime

  class Runtime {
    const idle: T.Tracker

    /** Between calls: the protocol's invariant, no call of `idle` under way, and tokens in any number. */
    ghost predicate Ready()
      reads idle
    {
      idle.Valid() && idle.waiter == Outside
    }

    constructor ()
      ensures fresh(idle) && Ready()
      ensures idle.tasks == [] && idle.roots == 0
    {
      var tracker := T.New();
      idle := tracker;
    }

    /** `Runtime::spawn_std`. */
    method SpawnStd(body: Prog)
      requires Ready()
      modifies idle
      ensures Ready() && idle.Abs() == Next(old(idle.Abs()), Root(true, body))
    {
      idle.Spawn(body);
    }

    /** `Runtime::run`. It makes no use of how many tokens earlier calls left behind. Whether it
        returns is settled when it is called. */
    method Run(outside: seq<Label>) returns (e: Ending)
      requires Ready() && T.AllForeign(outside)
      modifies idle
      ensures idle.Valid() && e != Unwound
      ensures e == Returned <==> Sum(Lost, idle.tasks) == 0
      ensures e == Returned ==> Ready() && idle.spawned == 0 && T.AllDone(idle.Abs())
      ensures e == Returned ==> Safe(old(idle.Abs()))
      ensures Sturdy(old(idle.Abs())) && T.AllTame(outside) ==> e == Returned
      ensures Harmless(old(idle.Abs())) && T.AllTame(outside) ==> (e == Returned <==> Safe(old(idle.Abs())))
      ensures Settles(old(idle.Abs()), idle.Abs(), outside)
      ensures T.Leads(Next(old(idle.Abs()), Call), idle.Abs(), outside)
    {
      e := RunTracked(idle, outside);
    }

    /** `Runtime::block_on_std`: the future is tracked, and run until it has completed, token
        included; `output` is what it computes. Other tasks move as the executor likes and may be
        left unfinished. */
    method BlockOnStd<V>(body: Prog, output: V, outside: seq<Label>) returns (e: Ending, v: Option<V>)
      requires Ready() && T.AllForeign(outside) && Drop(|idle.tasks|) !in outside
      modifies idle
      ensures Ready()
      ensures e == if Panics(body) then Unwound else Returned
      ensures v == if Panics(body) then None else Some(output)
      ensures Settles(Next(old(idle.Abs()), Root(true, body)), idle.Abs(), outside)
      ensures T.Leads(Next(old(idle.Abs()), Root(true, body)), idle.Abs(), outside)
      ensures |old(idle.tasks)| < |idle.tasks|
      ensures var root := idle.tasks[|old(idle.tasks)|];
              && root.counted && root.path == [old(idle.roots)] && root.body == body
              && (e == Returned <==> root.phase.Done?) && (e == Unwound <==> root.phase.Abandoned?)
    {
      e := BlockOnTracked(idle, body, outside);
      v := if e == Returned then Some(output) else None;
    }

    /** Any sequence of calls on one runtime. A `run` that returns leaves everything counted
        complete, whatever the calls before it left over; one that does not waits for a lost
        task. `SessionIsSettled` tells the endings from the calls. */
    method Session(calls: seq<ApiCall>) returns (endings: seq<Ending>, ghost states: seq<State>)
      requires Ready() && forall c :: c in calls ==> Proper(c)
      modifies idle
      ensures idle.Valid() && Orderly(calls, endings, states)
      ensures states[0] == old(idle.Abs()) && states[|states| - 1] == idle.Abs()
      decreases |calls|, 1
    {
      ghost var s := idle.Abs();
      if calls == [] {
        return [], [s];
      }
      var e := One(calls[0]);
      var rest;
      ghost var later;
      rest, later := Continue(calls[1..], e);
      endings, states := [e] + rest, [s] + later;
      OrderlyCons(calls, e, rest, s, later);
    }

    /** The calls that follow one that ended with `e`. */
    method Continue(calls: seq<ApiCall>, e: Ending) returns (endings: seq<Ending>, ghost states: seq<State>)
      requires idle.Valid() && (e != Hangs ==> Ready()) && forall c :: c in calls ==> Proper(c)
      modifies idle
      ensures idle.Valid()
      ensures if e == Hangs then endings == [] && |states| == 1 else Orderly(calls, endings, states)
      ensures states[0] == old(idle.Abs()) && states[|states| - 1] == idle.Abs()
      decreases |calls|, 2
    {
      if e == Hangs {
        endings, states := [], [idle.Abs()];
      } else {
        endings, states := Session(calls);
      }
    }

    method One(call: ApiCall) returns (e: Ending)
      requires Ready() && Proper(call)
      modifies idle
      ensures idle.Valid() && (e != Hangs ==> Ready())
      ensures Fits(call, e, old(idle.Abs()), idle.Abs())
    {
      match call
      case SpawnCall(body) =>
        idle.Spawn(body);
        e := Returned;
      case HandleCall(body) =>
        idle.SpawnHandle(body);
        e := Returned;
      case BlockOnCall(body, outside) =>
        var unit;
        e, unit := BlockOnStd(body, (), outside);
      case RunCall(outside) => e := Run(outside);
    }
  }

  /** What `run` and `shutdown_on_idle` do with a tracker. */
  method RunTracked(idle: T.Tracker, outside: seq<Label>) returns (e: Ending)
    requires idle.Valid() && idle.waiter == Outside && T.AllForeign(outside)
    modifies idle
    ensures idle.Valid() && e != Unwound
    ensures e == Returned <==> Sum(Lost, idle.tasks) == 0
    ensures e == Returned ==> idle.waiter == Outside && idle.spawned == 0 && T.AllDone(idle.Abs())
    ensures e == Returned ==> Safe(old(idle.Abs()))
    ensures Sturdy(old(idle.Abs())) && T.AllTame(outside) ==> e == Returned
    ensures Harmless(old(idle.Abs())) && T.AllTame(outside) ==> (e == Returned <==> Safe(old(idle.Abs())))
    ensures Settles(old(idle.Abs()), idle.Abs(), outside)
    ensures T.Leads(Next(old(idle.Abs()), Call), idle.Abs(), outside)
  {
    ghost var s := idle.Abs();
    SoundStep(s, Call);
    var returned, _, trace := idle.Idle(outside);
    e := if returned then Returned else Hangs;
    assert T.IsRunFrom(Next(s, Call), trace, outside, idle.Abs());
    RunSettles(Next(s, Call), trace, outside);
    SettlesCall(s, idle.Abs(), outside);
    if Harmless(s) {
      HarmlessSturdy(s);
    }
  }

  /** What `block_on_std` of either runtime does with its tracker. */
  method BlockOnTracked(idle: T.Tracker, body: Prog, outside: seq<Label>) returns (e: Ending)
    requires idle.Valid() && idle.waiter == Outside && T.AllForeign(outside) && Drop(|idle.tasks|) !in outside
    modifies idle
    ensures idle.Valid() && idle.waiter == Outside
    ensures e == if Panics(body) then Unwound else Returned
    ensures Settles(Next(old(idle.Abs()), Root(true, body)), idle.Abs(), outside)
    ensures T.Leads(Next(old(idle.Abs()), Root(true, body)), idle.Abs(), outside)
    ensures |old(idle.tasks)| < |idle.tasks|
    ensures var root := idle.tasks[|old(idle.tasks)|];
            && root.counted && root.path == [old(idle.roots)] && root.body == body
            && (e == Returned <==> root.phase.Done?) && (e == Unwound <==> root.phase.Abandoned?)
  {
    var root := |idle.tasks|;
    idle.Spawn(body);
    ghost var start := idle.Abs();
    var completed, trace := idle.Drive(root, outside);
    e := if completed then Returned else Unwound;
    assert T.IsRunFrom(start, trace, outside, idle.Abs());
    RunSettles(start, trace, outside);
  }

  /** A track that is reserved and dropped, with the future it was to wrap. */
  function Refused(s: State, body: Prog): State {
    var s' := Next(s, Root(true, body));
    Next(s', Drop(|s.tasks|))
  }

  /** A `block_on_std` that unwinds after its reserve and before its future is polled. */
  method RefuseTracked(idle: T.Tracker, body: Prog)
    requires idle.Valid() && idle.waiter == Outside
    modifies idle
    ensures idle.Valid() && idle.waiter == Outside
    ensures idle.Abs() == Refused(old(idle.Abs()), body) && !Safe(idle.Abs())
  {
    var root := |idle.tasks|;
    idle.Spawn(body);
    SoundStep(idle.Abs(), Drop(root));
    LosesCounted(idle.Abs(), Drop(root));
    idle.DropFuture(root);
  }

  // ---------------------------------------------------------------- entry points

  /** The names of the counted tasks of the first root's tree that have completed. */
  function Completed(s: State): set<Path> {
    set i | 0 <= i < |s.tasks| && ReleasedBy(s.tasks[i], s.clock) && [0] <= s.tasks[i].path :: s.tasks[i].path
  }

  /** The names of all counted tasks that running `body` as the first root creates. */
  function WholeTree(body: Prog): set<Path> {
    {[0]} + Nodes(body, [0], 0)
  }

  lemma CompletedWhole(s: State, body: Prog)
    requires T.AllDone(s) && s.tasks != [] && s.tasks[0].counted && s.tasks[0].path == [0] && s.tasks[0].body == body
    ensures Completed(s) == WholeTree(body)
  {
    assert TreeDone(s, 0, s.clock);
    forall q ensures q in Completed(s) <==> q in {[0]} + DoneBelow(s.tasks, [0], s.clock) {
      if q == [0] {
        assert ReleasedBy(s.tasks[0], s.clock);
      }
    }
  }

  /** The first root of a new runtime decides its prospects. */
  lemma FirstRoot(s: State, body: Prog)
    requires s.tasks == []
    ensures var s' := Next(s, Root(true, body));
            && (Safe(s') <==> CountedTotal(body)) && (Sturdy(s') <==> TreeTotal(body, true))
            && (Separated(body) ==> Harmless(s') && (Sturdy(s') <==> Safe(s')))
  {
    RootSettles(s, true, body);
    if Separated(body) {
      HarmlessSturdy(Next(s, Root(true, body)));
    }
  }

  /** What the end of a call that waits says of the first root. */
  lemma FirstRootEnds(start: State, body: Prog, end: State, returned: bool)
    requires start.tasks == [] && start.roots == 0 && SameTasks(Next(start, Root(true, body)).tasks, end.tasks)
    requires var s := Next(start, Root(true, body));
             && (returned ==> Safe(s) && T.AllDone(end)) && (Sturdy(s) ==> returned)
             && (Harmless(s) ==> (returned <==> Safe(s)))
    ensures returned ==> Completed(end) == WholeTree(body) && CountedTotal(body)
    ensures (TreeTotal(body, true) ==> returned) && (Separated(body) ==> (returned <==> CountedTotal(body)))
  {
    FirstRoot(start, body);
    if returned {
      CompletedWhole(end, body);
    }
  }

  lemma TotalTellsEnding(body: Prog)
    ensures CountedTotal(body) ==> !Panics(body)
    ensures TreeTotal(body, true) ==> CountedTotal(body)
  {
    if CountedTotal(body) {
      CountedTotalReturns(body);
    }
    if TreeTotal(body, true) {
      TreeTotalIsCountedTotal(body);
    }
  }

  /** The last `run` of an entry point, after whatever a new runtime has done since `body` became
      its first root: it returns only if no counted task of the tree panics, and then the whole
      counted tree has completed. */
  method RunRest(r: Runtime, body: Prog, ghost start: State) returns (e: Ending)
    requires r.Ready() && start.tasks == [] && Settles(Next(start, Root(true, body)), r.idle.Abs(), [])
    requires r.idle.tasks[0].path == [0]
    modifies r.idle
    ensures r.idle.Valid() && e != Unwound
    ensures e == Returned ==> Completed(r.idle.Abs()) == WholeTree(body) && r.idle.spawned == 0
    ensures e == Returned <==> Sum(Lost, r.idle.tasks) == 0
    ensures (e == Returned ==> CountedTotal(body)) && (TreeTotal(body, true) ==> e == Returned)
    ensures Separated(body) ==> (e == Returned <==> CountedTotal(body))
    ensures T.Leads(Next(old(r.idle.Abs()), Call), r.idle.Abs(), [])
  {
    FirstRoot(start, body);
    if Separated(body) {
      HarmlessSturdy(r.idle.Abs());
    }
    e := r.Run([]);
    if e == Returned {
      CompletedWhole(r.idle.Abs(), body);
    }
  }

  /** `current_thread::run`: spawn, then run. */
  method RunEntry(body: Prog) returns (e: Ending, r: Runtime, ghost start: State)
    ensures r.idle.Valid() && e != Unwound
    ensures start.tasks == [] && start.roots == 0 && start.waiter == Outside
    ensures T.Leads(Next(Next(start, Root(true, body)), Call), r.idle.Abs(), [])
    ensures e == Returned ==> Completed(r.idle.Abs()) == WholeTree(body) && r.idle.spawned == 0
    ensures e == Returned <==> Sum(Lost, r.idle.tasks) == 0
    ensures (e == Returned ==> CountedTotal(body)) && (TreeTotal(body, true) ==> e == Returned)
    ensures Separated(body) ==> (e == Returned <==> CountedTotal(body))
  {
    r := new Runtime();
    start := r.idle.Abs();
    r.SpawnStd(body);
    e := RunRest(r, body, start);
  }

  /** A new runtime that blocks on its first root. */
  method BlockFirst<V>(body: Prog, output: V) returns (e: Ending, v: Option<V>, r: Runtime, ghost start: State)
    ensures fresh(r) && fresh(r.idle) && r.Ready()
    ensures start.tasks == [] && start.roots == 0 && start.waiter == Outside
    ensures T.Leads(Next(start, Root(true, body)), r.idle.Abs(), [])
    ensures Settles(Next(start, Root(true, body)), r.idle.Abs(), []) && r.idle.tasks[0].path == [0]
    ensures e == if Panics(body) then Unwound else Returned
    ensures v == if e == Returned then Some(output) else None
  {
    r := new Runtime();
    start := r.idle.Abs();
    e, v := r.BlockOnStd(body, output, []);
  }

  /** `current_thread::run_std` and `block_on_all_std`: block on the future, then run what it
      left. The future's own panic unwinds; a panic of a counted task it spawned blocks for ever. */
  method RunStdEntry<V>(body: Prog, output: V)
    returns (e: Ending, v: Option<V>, r: Runtime, ghost start: State, ghost between: State)
    ensures r.idle.Valid()
    ensures start.tasks == [] && start.roots == 0 && start.waiter == Outside
    ensures T.Leads(Next(start, Root(true, body)), between, [])
    ensures if e == Unwound then r.idle.Abs() == between
            else between.waiter == Outside && T.Leads(Next(between, Call), r.idle.Abs(), [])
    ensures e == Returned ==> Completed(r.idle.Abs()) == WholeTree(body) && r.idle.spawned == 0
    ensures e == Unwound <==> Panics(body)
    ensures (e == Returned ==> CountedTotal(body)) && (TreeTotal(body, true) ==> e == Returned)
    ensures Separated(body) ==>
              (e == Returned <==> CountedTotal(body)) && (e == Hangs <==> !Panics(body) && !CountedTotal(body))
    ensures v == if e == Returned then Some(output) else None
  {
    e, v, r, start := BlockFirst(body, output);
    between := r.idle.Abs();
    TotalTellsEnding(body);
    if e == Returned {
      e := RunRest(r, body, start);
      v := if e == Returned then v else None;
    }
  }
}
