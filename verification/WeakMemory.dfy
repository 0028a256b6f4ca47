/** The protocol over a view-based weak memory.

    The counter is the list of its values in modification order. A load may return any
    entry not older than what its thread already knows (coherence); a read-modify-write
    reads the newest entry and appends the next one; an acquire load synchronizes with
    every release operation whose release sequence reaches the entry it reads. The rules
    are those of ISO C++20, section 6.9.2.1 [intro.races] and section 31.4 [atomics.order]. */
module WeakMemory {
  import opened Programs
  import opened Protocol

  datatype Ordering = Relaxed | Acquire | Release | AcqRel

  predicate Acquires(o: Ordering) { o.Acquire? || o.AcqRel? }

  predicate Releases(o: Ordering) { o.Release? || o.AcqRel? }

  /** The orderings of `reserve`, of the end of `Track::with`, of the load in `idle`, and
      whether `Track::with` has its acquire fence. */
  datatype Orders = Orders(add: Ordering, sub: Ordering, load: Ordering, fence: bool)

  const IN_CODE := Orders(Relaxed, Release, Acquire, true)

  /** The n-th ordinary write of a task. */
  datatype Write = Write(task: nat, n: nat)

  /** What a thread knows: a position of the counter, and the writes that happen before. */
  datatype View = View(pos: nat, seen: set<Write>)

  const NOTHING := View(0, {})

  function Join(a: View, b: View): View {
    View(if a.pos < b.pos then b.pos else a.pos, a.seen + b.seen)
  }

  /** An entry of the modification order, with the view of its writer at that point. */
  datatype Entry = Entry(val: int, rmw: bool, release: bool, view: View)

  /** Entry `j` heads a release sequence that contains entry `p`. */
  predicate Heads(hist: seq<Entry>, j: nat, p: nat)
    requires p < |hist|
  {
    && j <= p && hist[j].release
    && forall k :: j < k <= p ==> hist[k].rmw
  }

  /** The writes that an acquire operation reading entry `p` comes to see. */
  function Published(hist: seq<Entry>, p: nat): set<Write>
    requires p < |hist|
  {
    set j, w | 0 <= j < |hist| && Heads(hist, j, p) && w in hist[j].view.seen :: w
  }

  /** `views` and `wrote` belong to the tasks, `client` to the thread that calls `idle`.
      `read` is the position of the last load, `drained` the newest position that came with a token. */
  datatype Memory = Memory(
    core: State,
    hist: seq<Entry>,
    views: seq<View>,
    wrote: seq<nat>,
    tokens: seq<View>,
    client: View,
    read: nat,
    drained: nat)

  const BOOT := Memory(FRESH, [Entry(0, false, false, NOTHING)], [], [], [], NOTHING, 0, 0)

  datatype Party = Client | Of(task: nat)

  datatype Move =
    | Step(l: Label)                                // any step but a root spawn and a load
    | Spawned(own: bool, counted: bool, body: Prog) // a root, by the thread that calls `idle` or by another
    | LoadAt(p: nat)                                // the load in `idle` returns entry p
    | Sync(to: Party, from: Party)                  // any other synchronization between threads

  predicate Exists(m: Memory, p: Party) {
    p.Of? ==> p.task < |m.views|
  }

  predicate Possible(m: Memory, v: Move) {
    match v
    case Step(l) => !l.Root? && !l.Load? && Enabled(m.core, l)
    case Spawned(_, _, _) => true
    case LoadAt(p) => m.core.waiter == Checking && m.client.pos <= p < |m.hist|
    case Sync(to, from) => Exists(m, to) && Exists(m, from)
  }

  /** The step of the shared protocol that a move makes; `Sync` makes none. */
  function CoreStep(m: Memory, v: Move): Label
    requires Possible(m, v) && !v.Sync?
  {
    match v
    case Step(l) => l
    case Spawned(_, counted, body) => Root(counted, body)
    case LoadAt(p) => Load(m.hist[p].val == 0)
  }

  function CoreNext(m: Memory, v: Move): State
    requires Possible(m, v)
  {
    if v.Sync? then m.core else Next(m.core, CoreStep(m, v))
  }

  function Learn(acquires: bool, v: View, writes: set<Write>): View {
    if acquires then v.(seen := v.seen + writes) else v
  }

  /** The view of a thread after its read-modify-write. */
  function AfterRmw(hist: seq<Entry>, v: View, o: Ordering): View
    requires hist != []
  {
    Learn(Acquires(o), v.(pos := |hist|), Published(hist, |hist| - 1))
  }

  function Rmw(hist: seq<Entry>, v: View, o: Ordering, delta: int): seq<Entry>
    requires hist != []
  {
    hist + [Entry(hist[|hist| - 1].val + delta, true, Releases(o), AfterRmw(hist, v, o))]
  }

  function ActMemory(o: Orders, m: Memory, i: nat): Memory
    requires Enabled(m.core, Act(i)) && i < |m.views| == |m.wrote| && m.hist != []
  {
    var t := m.core.tasks[i];
    match t.phase.prog
    case Work(_) =>
      m.(wrote := m.wrote[i := m.wrote[i] + 1],
         views := m.views[i := Learn(true, m.views[i], {Write(i, m.wrote[i])})])
    case Spawn(_, _) =>
      var v := AfterRmw(m.hist, m.views[i], o.add);
      m.(hist := Rmw(m.hist, m.views[i], o.add, 1), views := m.views[i := v] + [v], wrote := m.wrote + [0])
    case SpawnHandle(_, _) =>
      m.(views := m.views + [m.views[i]], wrote := m.wrote + [0])
    case Return =>
      if !t.counted then m else
        var v := AfterRmw(m.hist, m.views[i], o.sub);
        var last := |m.hist| - 1;
        m.(hist := Rmw(m.hist, m.views[i], o.sub, -1),
           views := m.views[i := Learn(o.fence && m.hist[last].val == 1, v, Published(m.hist, last))])
    case Panic => m
  }

  function SyncMemory(m: Memory, to: Party, from: Party): Memory
    requires Exists(m, to) && Exists(m, from)
  {
    var v := if from.Client? then m.client else m.views[from.task];
    match to
    case Client => m.(client := Join(m.client, v))
    case Of(i) => m.(views := m.views[i := Join(m.views[i], v)])
  }

  /** The sizes agree: one view per task, one per queued token, one entry per step of the clock. */
  predicate Sized(m: Memory) {
    && |m.hist| == m.core.clock + 1
    && |m.views| == |m.wrote| == |m.core.tasks|
    && |m.tokens| == m.core.queue
  }

  /** A root spawned by thread `own ? the waiter's : another`; a counted one reserves first. */
  function SpawnMemory(o: Orders, m: Memory, own: bool, counted: bool): Memory
    requires m.hist != []
  {
    var v := if own then m.client else NOTHING;
    if !counted then m.(views := m.views + [v], wrote := m.wrote + [0]) else
      var v' := AfterRmw(m.hist, v, o.add);
      m.(hist := Rmw(m.hist, v, o.add, 1), views := m.views + [v'], wrote := m.wrote + [0],
         client := if own then v' else m.client)
  }

  /** A token carries the view of its sender, and its receiver learns it. */
  function StepMemory(o: Orders, m: Memory, l: Label): Memory
    requires Sized(m) && Possible(m, Step(l))
  {
    match l
    case Act(i) => ActMemory(o, m, i)
    case Send(i) => m.(tokens := m.tokens + [m.views[i]])
    case Recv =>
      m.(client := Join(m.client, m.tokens[0]), tokens := m.tokens[1..],
         drained := if m.drained < m.tokens[0].pos then m.tokens[0].pos else m.drained)
    case _ => m
  }

  function MemoryNext(o: Orders, m: Memory, v: Move): (m': Memory)
    requires Sized(m) && Possible(m, v)
    ensures Sized(m') && m'.core == CoreNext(m, v) && m.hist <= m'.hist
  {
    var after := match v
      case Step(l) => StepMemory(o, m, l)
      case Spawned(own, counted, _) => SpawnMemory(o, m, own, counted)
      case LoadAt(p) => m.(client := Learn(Acquires(o.load), m.client.(pos := p), Published(m.hist, p)), read := p)
      case Sync(to, from) => SyncMemory(m, to, from);
    after.(core := CoreNext(m, v))
  }
}
