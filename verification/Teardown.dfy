/** What a runtime's owner lets go of, and in which order: the rule by which Rust drops values,
    applied to the structs and functions that hold a runtime's parts. */
module Teardown {

  /** The guards of `set_default`: tokio 0.1's timer, reactor and executor of the calling thread. */
  datatype Guard = TimerGuard | ReactorGuard | ExecutorGuard

  datatype Resource =
    | Guarding(guard: Guard)
    | Pool          // the inner tokio 0.2 runtime
    | LocalTasks    // the local set of the current-thread runtime
    | Background    // the thread of the 0.1 timer and reactor
    | CellRef       // the strong reference to the shared cell

  /** What a variable or a field has: moved out (or nothing that matters here), a resource, or fields. */
  datatype Owned = Gone | Holding(resource: Resource) | Struct(fields: seq<Owned>)

  /** The fields of a struct are dropped in the order of their declaration. */
  function DropValue(v: Owned): seq<Resource>
    decreases v
  {
    match v
    case Gone => []
    case Holding(r) => [r]
    case Struct(fields) => DropAll(fields)
  }

  function DropAll(vs: seq<Owned>): seq<Resource>
    decreases vs
  {
    if vs == [] then [] else DropValue(vs[0]) + DropAll(vs[1..])
  }

  function Reverse(vs: seq<Owned>): seq<Owned> {
    if vs == [] then [] else Reverse(vs[1..]) + [vs[0]]
  }

  /** A function's locals are dropped in the reverse order of their declaration, its parameters after them. */
  function Leave(params: seq<Owned>, locals: seq<Owned>): seq<Resource> {
    DropAll(Reverse(locals)) + DropAll(Reverse(params))
  }

  // ---------------------------------------------------------------- the structs and functions

  /** `threadpool::Inner`: `runtime`, `compat_bg`. */
  function InnerOfPool(): Owned {
    Struct([Holding(Pool), Holding(Background)])
  }

  /** `threadpool::Runtime`: `inner`, `idle`, `idle_rx`, `compat_sender`. */
  function PoolRuntime(inner: Owned): Owned {
    Struct([inner, Gone, Gone, Holding(CellRef)])
  }

  /** `current_thread::Runtime`: `inner`, `local`, `idle`, `idle_rx`, `compat`. */
  function LocalRuntime(): Owned {
    Struct([Holding(Pool), Holding(LocalTasks), Gone, Gone, Holding(Background)])
  }

  /** The ways in which a runtime goes. */
  datatype Route = ShutdownOnIdle | RefusedShutdown | ShutdownNow | DropPoolRuntime | DropLocalRuntime

  /** The end of `shutdown_on_idle`: its locals are the spawner, moved into a guard; what the
      pattern binds out of `inner`; three guards; and a future, moved into the result. */
  function EndOfShutdown(bound: seq<Owned>): seq<Resource> {
    Leave([PoolRuntime(Gone)], LocalsOfShutdown(bound))
  }

  function LocalsOfShutdown(bound: seq<Owned>): seq<Owned> {
    [Gone] + bound
    + [Holding(Guarding(TimerGuard))] + [Holding(Guarding(ReactorGuard))] + [Holding(Guarding(ExecutorGuard))] + [Gone]
  }

  /** The order in which the resources go. A `shutdown_on_idle` that is refused its first guard
      unwinds with fewer locals; the handle in its spawner goes too. `shutdown_now` and `Drop for Runtime` take `inner`
      out and drop it first. */
  function TeardownOf(route: Route): seq<Resource> {
    match route
    case ShutdownOnIdle => EndOfShutdown([Holding(Background), Holding(Pool)])
    case RefusedShutdown => Leave([PoolRuntime(Gone)], [Gone] + [Holding(Background), Holding(Pool)])
    case ShutdownNow => DropValue(InnerOfPool()) + Leave([PoolRuntime(Gone)], [Gone])
    case DropPoolRuntime => DropValue(InnerOfPool()) + DropValue(PoolRuntime(Gone))
    case DropLocalRuntime => DropValue(LocalRuntime())
  }

  // ---------------------------------------------------------------- orders that are safe

  /** The background thread serves the pool's workers, the local tasks and the guards; the
      workers need the cell. */
  predicate MayGo(r: Resource, rest: seq<Resource>) {
    match r
    case Background => forall q :: q in rest ==> q == CellRef || q == Background
    case CellRef => Pool !in rest
    case _ => true
  }

  predicate Ordered(todo: seq<Resource>) {
    todo == [] || (MayGo(todo[0], todo[1..]) && Ordered(todo[1..]))
  }

  predicate Distinct(todo: seq<Resource>) {
    todo == [] || (todo[0] !in todo[1..] && Distinct(todo[1..]))
  }

  lemma {:induction false} DropAllConcat(a: seq<Owned>, b: seq<Owned>)
    ensures DropAll(a + b) == DropAll(a) + DropAll(b)
    decreases |a|
  {
    if a == [] {
      assert a + b == b;
    } else {
      assert (a + b)[1..] == a[1..] + b;
      DropAllConcat(a[1..], b);
    }
  }

  /** Dropped in reverse, the last goes first. */
  lemma {:induction false} DropReversed(a: seq<Owned>, last: Owned)
    ensures DropAll(Reverse(a + [last])) == DropValue(last) + DropAll(Reverse(a))
    decreases |a|
  {
    if a == [] {
      assert a + [last] == [last] && [last][1..] == [];
      assert Reverse([last]) == [last];
      DropOne(last);
    } else {
      assert (a + [last])[1..] == a[1..] + [last];
      DropReversed(a[1..], last);
      DropAllConcat(Reverse(a[1..] + [last]), [a[0]]);
      DropAllConcat(Reverse(a[1..]), [a[0]]);
    }
  }

  lemma DropOne(v: Owned)
    ensures DropAll([v]) == DropValue(v)
  {
    assert [v][1..] == [];
  }

  lemma DropCons(v: Owned, vs: seq<Owned>)
    ensures DropAll([v] + vs) == DropValue(v) + DropAll(vs)
  {
    DropAllConcat([v], vs);
    DropOne(v);
  }

  lemma DropPair(v: Owned, w: Owned)
    ensures DropAll([v, w]) == DropValue(v) + DropValue(w)
    ensures DropAll(Reverse([v, w])) == DropValue(w) + DropValue(v)
  {
    DropCons(v, [w]);
    DropOne(w);
    assert [v, w] == [v] + [w];
    assert [v, w][1..] == [w] && [w][1..] == [];
    assert Reverse([w]) == [w] && Reverse([v, w]) == [w] + [v];
    DropCons(w, [v]);
    DropOne(v);
  }

  /** What is left of `threadpool::Runtime` once `inner` is taken. */
  lemma DropRemains()
    ensures DropValue(PoolRuntime(Gone)) == [CellRef]
    ensures DropAll(Reverse([PoolRuntime(Gone)])) == [CellRef]
  {
    var v := PoolRuntime(Gone);
    assert [v][1..] == [] && Reverse([v]) == [v];
    DropOne(v);
    assert [Gone, Gone, Gone, Holding(CellRef)] == [Gone, Gone] + [Gone, Holding(CellRef)];
    DropAllConcat([Gone, Gone], [Gone, Holding(CellRef)]);
    DropPair(Gone, Gone);
    DropPair(Gone, Holding(CellRef));
  }

  /** The guards are declared last, and so dropped first. */
  function GuardsThen(rest: seq<Resource>): seq<Resource> {
    [Guarding(ExecutorGuard)] + ([Guarding(ReactorGuard)] + ([Guarding(TimerGuard)] + rest))
  }

  lemma LocalsOrder(bound: seq<Owned>)
    ensures DropAll(Reverse(LocalsOfShutdown(bound))) == GuardsThen(DropAll(Reverse(bound)))
  {
    var timer, reactor, executor :=
      Holding(Guarding(TimerGuard)), Holding(Guarding(ReactorGuard)), Holding(Guarding(ExecutorGuard));
    var inner := [Gone] + bound;
    DropReversed(inner + [timer] + [reactor] + [executor], Gone);
    DropReversed(inner + [timer] + [reactor], executor);
    DropReversed(inner + [timer], reactor);
    DropReversed(inner, timer);
    assert inner[1..] == bound;
    DropAllConcat(Reverse(bound), [Gone]);
    DropOne(Gone);
  }

  lemma EndOrder(bound: seq<Owned>)
    ensures EndOfShutdown(bound) == GuardsThen(DropAll(Reverse(bound)) + [CellRef])
  {
    LocalsOrder(bound);
    DropRemains();
    var rest := DropAll(Reverse(bound));
    Concat([Guarding(TimerGuard)], rest, [CellRef]);
    Concat([Guarding(ReactorGuard)], [Guarding(TimerGuard)] + rest, [CellRef]);
    Concat([Guarding(ExecutorGuard)], [Guarding(ReactorGuard)] + ([Guarding(TimerGuard)] + rest), [CellRef]);
  }

  lemma Concat(a: seq<Resource>, b: seq<Resource>, c: seq<Resource>)
    ensures a + b + c == a + (b + c)
  {
  }

  /** The orders that the rule derives. */
  lemma RouteOrder(route: Route)
    ensures TeardownOf(route) ==
              match route
              case ShutdownOnIdle => GuardsThen([Pool, Background, CellRef])
              case RefusedShutdown => [Pool, Background, CellRef]
              case ShutdownNow => [Pool, Background, CellRef]
              case DropPoolRuntime => [Pool, Background, CellRef]
              case DropLocalRuntime => [Pool, LocalTasks, Background]
  {
    DropPair(Holding(Pool), Holding(Background));
    DropRemains();
    match route
    case ShutdownOnIdle =>
      EndOrder([Holding(Background), Holding(Pool)]);
      DropPair(Holding(Background), Holding(Pool));
      assert DropAll(Reverse([Holding(Background), Holding(Pool)])) + [CellRef] == [Pool, Background, CellRef];
    case RefusedShutdown =>
      var bound := [Holding(Background), Holding(Pool)];
      assert ([Gone] + bound)[1..] == bound;
      DropPair(Holding(Background), Holding(Pool));
      DropAllConcat(Reverse(bound), [Gone]);
      DropOne(Gone);
    case ShutdownNow =>
      assert [Gone][1..] == [] && Reverse([Gone]) == [Gone];
      DropOne(Gone);
    case DropPoolRuntime =>
    case DropLocalRuntime =>
      assert [Holding(Pool), Holding(LocalTasks), Gone, Gone, Holding(Background)]
          == [Holding(Pool), Holding(LocalTasks)] + ([Gone, Gone] + [Holding(Background)]);
      DropAllConcat([Holding(Pool), Holding(LocalTasks)], [Gone, Gone] + [Holding(Background)]);
      DropAllConcat([Gone, Gone], [Holding(Background)]);
      DropPair(Holding(Pool), Holding(LocalTasks));
      DropPair(Gone, Gone);
      DropOne(Holding(Background));
  }

  lemma {:induction false} OrderedCons(r: Resource, rest: seq<Resource>)
    ensures Ordered([r] + rest) <==> MayGo(r, rest) && Ordered(rest)
    ensures Distinct([r] + rest) <==> r !in rest && Distinct(rest)
  {
    assert ([r] + rest)[1..] == rest;
  }

  /** The end of every teardown of the thread pool. */
  lemma TailOrder(first: Resource, second: Resource)
    requires {first, second} == {Pool, Background} && first != second
    ensures Ordered([first, second, CellRef]) <==> first == Pool
    ensures Distinct([first, second, CellRef])
  {
    assert [first, second, CellRef] == [first] + [second, CellRef] && [second, CellRef] == [second] + [CellRef];
    assert [CellRef] == [CellRef] + [];
    OrderedCons(first, [second, CellRef]);
    OrderedCons(second, [CellRef]);
    OrderedCons(CellRef, []);
    assert first != Pool ==> second == Pool && second in [second, CellRef];
  }

  lemma GuardsFirst(rest: seq<Resource>)
    requires forall g: Guard :: Guarding(g) !in rest
    ensures Ordered(GuardsThen(rest)) <==> Ordered(rest)
    ensures Distinct(GuardsThen(rest)) <==> Distinct(rest)
  {
    var one := [Guarding(TimerGuard)] + rest;
    var two := [Guarding(ReactorGuard)] + one;
    OrderedCons(Guarding(TimerGuard), rest);
    OrderedCons(Guarding(ReactorGuard), one);
    OrderedCons(Guarding(ExecutorGuard), two);
  }

  lemma LocalTasksBetween()
    ensures Ordered([Pool, LocalTasks, Background]) && Distinct([Pool, LocalTasks, Background])
  {
    assert [Pool, LocalTasks, Background] == [Pool] + [LocalTasks, Background];
    assert [LocalTasks, Background] == [LocalTasks] + [Background] && [Background] == [Background] + [];
    OrderedCons(Pool, [LocalTasks, Background]);
    OrderedCons(LocalTasks, [Background]);
    OrderedCons(Background, []);
  }

  /** Every way in which the code lets a runtime go is ordered. */
  lemma RoutesAreOrdered(route: Route)
    ensures Ordered(TeardownOf(route)) && Distinct(TeardownOf(route))
  {
    RouteOrder(route);
    TailOrder(Pool, Background);
    match route
    case ShutdownOnIdle => GuardsFirst([Pool, Background, CellRef]);
    case DropLocalRuntime => LocalTasksBetween();
    case _ =>
  }

  lemma GuardsThenHolds(rest: seq<Resource>, r: Resource)
    ensures r in GuardsThen(rest) <==> r.Guarding? || r in rest
  {
    var one := [Guarding(TimerGuard)] + rest;
    var two := [Guarding(ReactorGuard)] + one;
    assert r in one <==> r == Guarding(TimerGuard) || r in rest;
    assert r in two <==> r == Guarding(ReactorGuard) || r in one;
    assert r in GuardsThen(rest) <==> r == Guarding(ExecutorGuard) || r in two;
    assert r.Guarding? ==> r.guard == TimerGuard || r.guard == ReactorGuard || r.guard == ExecutorGuard;
  }

  /** What each way lets go of. */
  lemma RouteHolds(route: Route, r: Resource)
    ensures r in TeardownOf(route) <==>
              match r
              case Guarding(_) => route == ShutdownOnIdle
              case LocalTasks => route == DropLocalRuntime
              case CellRef => route != DropLocalRuntime
              case _ => true
  {
    RouteOrder(route);
    GuardsThenHolds([Pool, Background, CellRef], r);
  }

  /** It hangs on declaration order twice, and the other way round: the pattern of
      `shutdown_on_idle` has to bind the background thread before the pool, ... */
  lemma PatternDecides(first: Resource, second: Resource)
    requires {first, second} == {Pool, Background} && first != second
    ensures EndOfShutdown([Holding(first), Holding(second)]) == GuardsThen([second, first, CellRef])
    ensures Ordered(EndOfShutdown([Holding(first), Holding(second)])) <==> first == Background
    ensures Distinct(EndOfShutdown([Holding(first), Holding(second)]))
  {
    EndOrder([Holding(first), Holding(second)]);
    DropPair(Holding(first), Holding(second));
    TailOrder(second, first);
    GuardsFirst([second, first, CellRef]);
    assert DropAll(Reverse([Holding(first), Holding(second)])) + [CellRef] == [second, first, CellRef];
  }

  lemma TailHolds(first: Resource, second: Resource, r: Resource)
    requires {first, second} == {Pool, Background} && first != second
    ensures r in [first, second, CellRef] <==> r == Pool || r == Background || r == CellRef
  {
    assert r in {first, second} <==> r in {Pool, Background};
  }

  /** ... and `Inner` has to declare it after the pool. */
  lemma FieldsDecide(first: Resource, second: Resource)
    requires {first, second} == {Pool, Background} && first != second
    ensures var todo := DropValue(Struct([Holding(first), Holding(second)])) + DropValue(PoolRuntime(Gone));
            todo == [first, second, CellRef] && Distinct(todo) && (Ordered(todo) <==> first == Pool)
  {
    DropPair(Holding(first), Holding(second));
    DropRemains();
    TailOrder(first, second);
  }
}
