/** What the views of the weak-memory model stand for. Happens-before is said here without them:
    by what a move makes known, and along which links knowledge passes, one move after the other.
    A party, an entry of the counter or a token knows exactly what happened before. */
module HappensBefore {
  import opened Programs
  import opened Protocol
  import opened Invariants
  import opened WeakMemory
  import opened MemoryInvariants
  import opened MemoryRuns

  /** Where knowledge can be: with a thread, in an entry of the counter's history, in a token.
      Tokens are numbered in the order in which they are sent. */
  datatype Place = Thread(party: Party) | At(entry: nat) | InToken(number: nat)

  /** What can be known: a write, or that the counter was accessed at a position or later. */
  datatype Fact = Wrote(w: Write) | Reached(pos: nat)

  predicate IsHere(m: Memory, b: Place) {
    match b
    case Thread(p) => Exists(m, p)
    case At(p) => p < |m.hist|
    case InToken(n) => m.core.consumed <= n < m.core.consumed + |m.tokens|
  }

  function ViewAt(m: Memory, b: Place): View
    requires IsHere(m, b)
  {
    match b
    case Thread(p) => if p.Client? then m.client else m.views[p.task]
    case At(p) => m.hist[p].view
    case InToken(n) => m.tokens[n - m.core.consumed]
  }

  predicate Holds(v: View, f: Fact) {
    match f
    case Wrote(w) => w in v.seen
    case Reached(p) => p <= v.pos
  }

  predicate Knows(m: Memory, b: Place, f: Fact) {
    IsHere(m, b) && Holds(ViewAt(m, b), f)
  }

  // ---------------------------------------------------------------- the rules

  /** Entry `j` synchronizes with an acquire operation that reads entry `p`. */
  predicate SyncsWith(m: Memory, j: nat, p: int) {
    j <= p < |m.hist| && Heads(m.hist, j, p)
  }

  /** The ordering of the read-modify-write of a move, if it has one. */
  function RmwOrder(o: Orders, m: Memory, v: Move): (r: seq<Ordering>)
    requires Possible(m, v)
  {
    match v
    case Step(l) =>
      if l.Act? && m.core.tasks[l.i].phase.prog.Spawn? then [o.add]
      else if l.Act? && m.core.tasks[l.i].phase.prog.Return? && m.core.tasks[l.i].counted then [o.sub]
      else []
    case Spawned(_, counted, _) => if counted then [o.add] else []
    case _ => []
  }

  /** Who makes the move: a task, the waiter, or a thread that nothing is known of. */
  predicate IsActor(v: Move, p: Party) {
    match v
    case Step(l) => if l.Act? || l.Send? then p == Of(l.i) else l.Recv? && p == Client
    case Spawned(own, _, _) => own && p == Client
    case LoadAt(_) => p == Client
    case Sync(to, _) => p == to
  }

  /** The move begins a task, number `n`. */
  predicate Begins(m: Memory, v: Move, n: nat)
    requires Possible(m, v)
  {
    && n == |m.views|
    && match v
       case Step(l) =>
         l.Act? && (m.core.tasks[l.i].phase.prog.Spawn? || m.core.tasks[l.i].phase.prog.SpawnHandle?)
       case Spawned(_, _, _) => true
       case _ => false
  }

  /** Where a move puts what its actor comes to know by its read-modify-write: with the actor, in
      the new entry, with the task it begins. */
  predicate Receives(m: Memory, v: Move, b: Place)
    requires Possible(m, v)
  {
    match b
    case Thread(p) => IsActor(v, p) || (p.Of? && Begins(m, v, p.task))
    case At(p) => p == |m.hist|
    case InToken(_) => false
  }

  /** What a move makes known, and to whom. */
  predicate Arises(o: Orders, m: Memory, v: Move, b: Place, f: Fact)
    requires Possible(m, v)
  {
    match f
    case Wrote(w) =>
      // the n-th ordinary write of a task
      && v.Step? && v.l.Act? && m.core.tasks[v.l.i].phase.prog.Work? && b == Thread(Of(v.l.i))
      && v.l.i < |m.wrote| && w == Write(v.l.i, m.wrote[v.l.i])
    case Reached(p) =>
      // an access to the counter
      || (RmwOrder(o, m, v) != [] && p <= |m.hist| && Receives(m, v, b))
      || (v.LoadAt? && p <= v.p && b == Thread(Client))
  }

  /** Along which links knowledge passes in a move: it stays; a task is begun by its spawner; a
      token is sent and received; threads synchronize otherwise; a writer leaves it in its entry,
      and from there it goes to an acquire operation, or a fence, that reads a release sequence. */
  predicate Links(o: Orders, m: Memory, v: Move, a: Place, b: Place)
    requires Possible(m, v)
  {
    || a == b
    || (a.Thread? && b.Thread? && b.party.Of? && IsActor(v, a.party) && Begins(m, v, b.party.task))
    || (v.Step? && v.l.Send? && a == Thread(Of(v.l.i)) && b == InToken(m.core.consumed + m.core.queue))
    || (v.Step? && v.l.Recv? && a == InToken(m.core.consumed) && b == Thread(Client))
    || (v.Sync? && a == Thread(v.from) && b == Thread(v.to))
    || (RmwOrder(o, m, v) != [] && a.Thread? && IsActor(v, a.party) && b == At(|m.hist|))
    || (RmwOrder(o, m, v) != [] && Acquires(RmwOrder(o, m, v)[0]) && a.At? && SyncsWith(m, a.entry, |m.hist| - 1)
        && Receives(m, v, b))
    || (v.LoadAt? && Acquires(o.load) && a.At? && SyncsWith(m, a.entry, v.p) && b == Thread(Client))
    || (Fences(o, m, v) && a.At? && SyncsWith(m, a.entry, |m.hist| - 1) && b == Thread(Of(v.l.i)))
  }

  /** The acquire fence behind a `fetch_sub` that returned 1. */
  predicate Fences(o: Orders, m: Memory, v: Move)
    requires Possible(m, v)
  {
    && o.fence && v.Step? && v.l.Act? && m.core.tasks[v.l.i].phase.prog.Return? && m.core.tasks[v.l.i].counted
    && m.hist != [] && m.hist[|m.hist| - 1].val == 1
  }

  // ---------------------------------------------------------------- one move

  /** Positions are known to exist, and no entry knows of a later one. */
  ghost predicate Bounded(m: Memory) {
    && Sized(m)
    && m.client.pos < |m.hist|
    && BoundedViews(m.views, |m.hist|)
    && BoundedViews(m.tokens, |m.hist|)
    && BoundedHistory(m.hist)
  }

  /** What is learned from entry `p`. */
  lemma PublishedIsLinked(m: Memory, p: nat, w: Write)
    requires p < |m.hist|
    ensures w in Published(m.hist, p) <==> exists j: nat :: SyncsWith(m, j, p) && Knows(m, At(j), Wrote(w))
  {
    if w in Published(m.hist, p) {
      var j :| 0 <= j < |m.hist| && Heads(m.hist, j, p) && w in m.hist[j].view.seen;
      assert SyncsWith(m, j, p) && Knows(m, At(j), Wrote(w));
    }
    if j: nat :| SyncsWith(m, j, p) && Knows(m, At(j), Wrote(w)) {
      assert Heads(m.hist, j, p) && w in m.hist[j].view.seen;
    }
  }

  // forth: what is known and passed on, or arises, is known afterwards

  lemma ActForth(o: Orders, m: Memory, i: nat, a: Place, b: Place, f: Fact)
    requires Bounded(m) && Possible(m, Step(Act(i))) && i < |m.views| == |m.wrote|
    requires Knows(m, a, f) && Links(o, m, Step(Act(i)), a, b) && IsHere(MemoryNext(o, m, Step(Act(i))), b)
    ensures Knows(MemoryNext(o, m, Step(Act(i))), b, f)
  {
    var last := |m.hist| - 1;
    if a.At? && SyncsWith(m, a.entry, last) && f.Wrote? {
      PublishedIsLinked(m, last, f.w);
    }
  }

  lemma SpawnedForth(o: Orders, m: Memory, v: Move, a: Place, b: Place, f: Fact)
    requires Bounded(m) && v.Spawned?
    requires Knows(m, a, f) && Links(o, m, v, a, b) && IsHere(MemoryNext(o, m, v), b)
    ensures Knows(MemoryNext(o, m, v), b, f)
  {
    if a.At? && SyncsWith(m, a.entry, |m.hist| - 1) && f.Wrote? {
      PublishedIsLinked(m, |m.hist| - 1, f.w);
    }
  }

  lemma LoadForth(o: Orders, m: Memory, p: nat, a: Place, b: Place, f: Fact)
    requires Bounded(m) && Possible(m, LoadAt(p))
    requires Knows(m, a, f) && Links(o, m, LoadAt(p), a, b) && IsHere(MemoryNext(o, m, LoadAt(p)), b)
    ensures Knows(MemoryNext(o, m, LoadAt(p)), b, f)
  {
    if a.At? && SyncsWith(m, a.entry, p) && f.Wrote? {
      PublishedIsLinked(m, p, f.w);
    }
  }

  lemma MoveForth(o: Orders, m: Memory, v: Move, a: Place, b: Place, f: Fact)
    requires Bounded(m) && Possible(m, v)
    requires Knows(m, a, f) && Links(o, m, v, a, b) && IsHere(MemoryNext(o, m, v), b)
    ensures Knows(MemoryNext(o, m, v), b, f)
  {
    match v
    case Step(l) =>
      if l.Act? {
        ActForth(o, m, l.i, a, b, f);
      }
    case LoadAt(p) => LoadForth(o, m, p, a, b, f);
    case Spawned(_, _, _) => SpawnedForth(o, m, v, a, b, f);
    case Sync(_, _) =>
  }

  lemma ArisesForth(o: Orders, m: Memory, v: Move, b: Place, f: Fact)
    requires Bounded(m) && Possible(m, v) && Arises(o, m, v, b, f) && IsHere(MemoryNext(o, m, v), b)
    ensures Knows(MemoryNext(o, m, v), b, f)
  {
  }

  // back: what is known afterwards arises, or was known and is passed on

  /** Position 0 is known to all without being told. */
  predicate Told(f: Fact) {
    f.Reached? ==> f.pos > 0
  }

  ghost predicate Explained(o: Orders, m: Memory, v: Move, b: Place, f: Fact)
    requires Possible(m, v)
  {
    Arises(o, m, v, b, f) || exists a: Place :: Knows(m, a, f) && Links(o, m, v, a, b)
  }

  lemma Explain(o: Orders, m: Memory, v: Move, a: Place, b: Place, f: Fact)
    requires Possible(m, v) && Knows(m, a, f) && Links(o, m, v, a, b)
    ensures Explained(o, m, v, b, f)
  {
  }

  /** What a read-modify-write learns is explained, wherever it is put. */
  lemma RmwBack(o: Orders, m: Memory, v: Move, p: Party, view: View, b: Place, f: Fact)
    requires Bounded(m) && Possible(m, v) && Told(f) && RmwOrder(o, m, v) != [] && Receives(m, v, b)
    requires Holds(AfterRmw(m.hist, view, RmwOrder(o, m, v)[0]), f)
    requires view == NOTHING || (Exists(m, p) && IsActor(v, p) && view == ViewAt(m, Thread(p)))
    ensures Explained(o, m, v, b, f)
  {
    if f.Wrote? {
      if f.w in view.seen {
        Explain(o, m, v, Thread(p), b, f);
      } else {
        PublishedIsLinked(m, |m.hist| - 1, f.w);
        var j: nat :| SyncsWith(m, j, |m.hist| - 1) && Knows(m, At(j), f);
        Explain(o, m, v, At(j), b, f);
      }
    }
  }

  lemma ActBack(o: Orders, m: Memory, i: nat, b: Place, f: Fact)
    requires Bounded(m) && Possible(m, Step(Act(i))) && Told(f) && Knows(MemoryNext(o, m, Step(Act(i))), b, f)
    ensures Explained(o, m, Step(Act(i)), b, f)
  {
    var v := Step(Act(i));
    var last := |m.hist| - 1;
    if IsHere(m, b) && Knows(m, b, f) {
      Explain(o, m, v, b, b, f);
    } else if RmwOrder(o, m, v) != [] && Receives(m, v, b) && Holds(AfterRmw(m.hist, m.views[i], RmwOrder(o, m, v)[0]), f) {
      RmwBack(o, m, v, Of(i), m.views[i], b, f);
    } else if Fences(o, m, v) && b == Thread(Of(i)) {
      PublishedIsLinked(m, last, f.w);
      var j: nat :| SyncsWith(m, j, last) && Knows(m, At(j), f);
      Explain(o, m, v, At(j), b, f);
    } else if Begins(m, v, |m.views|) && b == Thread(Of(|m.views|)) {
      Explain(o, m, v, Thread(Of(i)), b, f);
    }
  }

  lemma SpawnedBack(o: Orders, m: Memory, v: Move, b: Place, f: Fact)
    requires Bounded(m) && v.Spawned? && Told(f) && Knows(MemoryNext(o, m, v), b, f)
    ensures Explained(o, m, v, b, f)
  {
    var view := if v.own then m.client else NOTHING;
    if IsHere(m, b) && Knows(m, b, f) {
      Explain(o, m, v, b, b, f);
    } else if v.counted {
      RmwBack(o, m, v, Client, view, b, f);
    } else {
      Explain(o, m, v, Thread(Client), b, f);
    }
  }

  lemma LoadBack(o: Orders, m: Memory, p: nat, b: Place, f: Fact)
    requires Bounded(m) && Possible(m, LoadAt(p)) && Told(f) && Knows(MemoryNext(o, m, LoadAt(p)), b, f)
    ensures Explained(o, m, LoadAt(p), b, f)
  {
    if IsHere(m, b) && Knows(m, b, f) {
      Explain(o, m, LoadAt(p), b, b, f);
    } else if f.Wrote? {
      PublishedIsLinked(m, p, f.w);
      var j: nat :| SyncsWith(m, j, p) && Knows(m, At(j), f);
      Explain(o, m, LoadAt(p), At(j), b, f);
    }
  }

  lemma MoveBack(o: Orders, m: Memory, v: Move, b: Place, f: Fact)
    requires Bounded(m) && Possible(m, v) && Told(f) && Knows(MemoryNext(o, m, v), b, f)
    ensures Explained(o, m, v, b, f)
  {
    match v
    case Step(l) =>
      if l.Act? {
        ActBack(o, m, l.i, b, f);
      } else if IsHere(m, b) && Knows(m, b, f) {
        Explain(o, m, v, b, b, f);
      } else if l.Send? {
        Explain(o, m, v, Thread(Of(l.i)), b, f);
      } else {
        Explain(o, m, v, InToken(m.core.consumed), b, f);
      }
    case LoadAt(p) => LoadBack(o, m, p, b, f);
    case Spawned(_, _, _) => SpawnedBack(o, m, v, b, f);
    case Sync(to, from) =>
      if IsHere(m, b) && Knows(m, b, f) {
        Explain(o, m, v, b, b, f);
      } else {
        Explain(o, m, v, Thread(from), b, f);
      }
  }

  // ---------------------------------------------------------------- runs

  ghost predicate BoundedHistory(hist: seq<Entry>) {
    forall p :: 0 <= p < |hist| ==> hist[p].view.pos <= p
  }

  ghost predicate BoundedViews(views: seq<View>, n: nat) {
    forall i :: 0 <= i < |views| ==> views[i].pos < n
  }

  lemma BoundedAct(o: Orders, m: Memory, i: nat)
    requires Bounded(m) && Possible(m, Step(Act(i)))
    ensures var m' := ActMemory(o, m, i);
            && BoundedHistory(m'.hist) && BoundedViews(m'.views, |m'.hist|) && |m.hist| <= |m'.hist|
            && m'.client == m.client && m'.tokens == m.tokens
  {
  }

  lemma BoundedMove(o: Orders, m: Memory, v: Move)
    requires Bounded(m) && Possible(m, v)
    ensures Bounded(MemoryNext(o, m, v))
  {
    if v.Step? && v.l.Act? {
      BoundedAct(o, m, v.l.i);
      assert MemoryNext(o, m, v) == ActMemory(o, m, v.l.i).(core := CoreNext(m, v));
    }
  }

  /** A chain of links leads from one place before the run to another after it. */
  ghost predicate Leads(o: Orders, m: Memory, vs: seq<Move>, a: Place, b: Place)
    requires Sized(m) && Runs(o, m, vs)
    decreases |vs|
  {
    if vs == [] then a == b && IsHere(m, a) else
      exists c: Place :: LinksTo(o, m, vs[0], a, c) && Leads(o, MemoryNext(o, m, vs[0]), vs[1..], c, b)
  }

  ghost predicate LinksTo(o: Orders, m: Memory, v: Move, a: Place, c: Place)
    requires Sized(m) && Possible(m, v)
  {
    IsHere(m, a) && Links(o, m, v, a, c) && IsHere(MemoryNext(o, m, v), c)
  }

  /** Some move of the run makes the fact known, and from there a chain of links leads on. */
  ghost predicate Happens(o: Orders, m: Memory, vs: seq<Move>, f: Fact, b: Place)
    requires Sized(m) && Runs(o, m, vs)
    decreases |vs|
  {
    vs != [] &&
    var m' := MemoryNext(o, m, vs[0]);
    ((exists c: Place :: ArisesAt(o, m, vs[0], c, f) && Leads(o, m', vs[1..], c, b)) || Happens(o, m', vs[1..], f, b))
  }

  ghost predicate ArisesAt(o: Orders, m: Memory, v: Move, c: Place, f: Fact)
    requires Sized(m) && Possible(m, v)
  {
    Arises(o, m, v, c, f) && IsHere(MemoryNext(o, m, v), c)
  }

  lemma {:induction false} LeadsForth(o: Orders, m: Memory, vs: seq<Move>, a: Place, b: Place, f: Fact)
    requires Bounded(m) && Runs(o, m, vs) && Knows(m, a, f) && Leads(o, m, vs, a, b)
    ensures Knows(Last(o, m, vs), b, f)
    decreases |vs|
  {
    if vs != [] {
      var m' := MemoryNext(o, m, vs[0]);
      var c: Place :| LinksTo(o, m, vs[0], a, c) && Leads(o, m', vs[1..], c, b);
      MoveForth(o, m, vs[0], a, c, f);
      BoundedMove(o, m, vs[0]);
      LeadsForth(o, m', vs[1..], c, b, f);
    }
  }

  lemma {:induction false} HappensForth(o: Orders, m: Memory, vs: seq<Move>, f: Fact, b: Place)
    requires Bounded(m) && Runs(o, m, vs) && Happens(o, m, vs, f, b)
    ensures Knows(Last(o, m, vs), b, f)
    decreases |vs|
  {
    var m' := MemoryNext(o, m, vs[0]);
    BoundedMove(o, m, vs[0]);
    if c: Place :| ArisesAt(o, m, vs[0], c, f) && Leads(o, m', vs[1..], c, b) {
      ArisesForth(o, m, vs[0], c, f);
      LeadsForth(o, m', vs[1..], c, b, f);
    } else {
      HappensForth(o, m', vs[1..], f, b);
    }
  }

  /** It was known somewhere before the run, and a chain leads on. */
  ghost predicate WasKnown(o: Orders, m: Memory, vs: seq<Move>, f: Fact, b: Place)
    requires Sized(m) && Runs(o, m, vs)
  {
    exists a: Place :: Knows(m, a, f) && Leads(o, m, vs, a, b)
  }

  lemma {:induction false} KnownBack(o: Orders, m: Memory, vs: seq<Move>, f: Fact, b: Place)
    requires Bounded(m) && Runs(o, m, vs) && Told(f) && Knows(Last(o, m, vs), b, f)
    ensures WasKnown(o, m, vs, f, b) || Happens(o, m, vs, f, b)
    decreases |vs|
  {
    if vs == [] {
      assert Leads(o, m, vs, b, b);
    } else {
      var m' := MemoryNext(o, m, vs[0]);
      BoundedMove(o, m, vs[0]);
      KnownBack(o, m', vs[1..], f, b);
      if WasKnown(o, m', vs[1..], f, b) {
        var c: Place :| Knows(m', c, f) && Leads(o, m', vs[1..], c, b);
        MoveBack(o, m, vs[0], c, f);
        KnownCons(o, m, vs, f, c, b);
      }
    }
  }

  lemma KnownCons(o: Orders, m: Memory, vs: seq<Move>, f: Fact, c: Place, b: Place)
    requires Sized(m) && vs != [] && Runs(o, m, vs) && Explained(o, m, vs[0], c, f)
    requires IsHere(MemoryNext(o, m, vs[0]), c) && Leads(o, MemoryNext(o, m, vs[0]), vs[1..], c, b)
    ensures WasKnown(o, m, vs, f, b) || Happens(o, m, vs, f, b)
  {
    if Arises(o, m, vs[0], c, f) {
      assert ArisesAt(o, m, vs[0], c, f);
    } else {
      var a: Place :| Knows(m, a, f) && Links(o, m, vs[0], a, c);
      assert LinksTo(o, m, vs[0], a, c);
      assert Leads(o, m, vs, a, b);
    }
  }

  /** Views are happens-before. After any run, a thread, an entry or a token has in its view
      exactly what was known before at the beginning of a chain of links that leads to it, or arose
      in the run at the beginning of one. */
  lemma ViewsAreHappensBefore(o: Orders, m: Memory, vs: seq<Move>, b: Place, f: Fact)
    requires Bounded(m) && Runs(o, m, vs) && Told(f)
    ensures Knows(Last(o, m, vs), b, f) <==> WasKnown(o, m, vs, f, b) || Happens(o, m, vs, f, b)
  {
    if Knows(Last(o, m, vs), b, f) {
      KnownBack(o, m, vs, f, b);
    }
    if WasKnown(o, m, vs, f, b) {
      var a: Place :| Knows(m, a, f) && Leads(o, m, vs, a, b);
      LeadsForth(o, m, vs, a, b, f);
    }
    if Happens(o, m, vs, f, b) {
      HappensForth(o, m, vs, f, b);
    }
  }

  lemma NothingIsKnown(m: Memory, a: Place, f: Fact)
    requires m == BOOT && Told(f)
    ensures Bounded(m) && !Knows(m, a, f)
  {
  }

  /** From a new runtime on, whatever is known has happened in the run. */
  lemma FromBoot(o: Orders, vs: seq<Move>, b: Place, f: Fact)
    requires Runs(o, BOOT, vs) && Told(f)
    ensures Knows(Last(o, BOOT, vs), b, f) <==> Happens(o, BOOT, vs, f, b)
  {
    NothingIsKnown(BOOT, b, f);
    if Knows(Last(o, BOOT, vs), b, f) {
      KnownBack(o, BOOT, vs, f, b);
      if WasKnown(o, BOOT, vs, f, b) {
        var a: Place :| Knows(BOOT, a, f) && Leads(o, BOOT, vs, a, b);
        NothingIsKnown(BOOT, a, f);
      }
    }
    if Happens(o, BOOT, vs, f, b) {
      HappensForth(o, BOOT, vs, f, b);
    }
  }

  /** So the loads are coherent, in so many words: the waiter's load can return any entry but those
      that an access to a later one, happening before, has left behind. */
  lemma LoadsAreCoherent(o: Orders, vs: seq<Move>, p: nat)
    requires Runs(o, BOOT, vs)
    ensures var m := Last(o, BOOT, vs);
            Possible(m, LoadAt(p)) <==>
            m.core.waiter == Checking && p < |m.hist| && forall q: nat :: q > p ==> !Happens(o, BOOT, vs, Reached(q), Thread(Client))
  {
    var m := Last(o, BOOT, vs);
    forall q: nat | q > p ensures Happens(o, BOOT, vs, Reached(q), Thread(Client)) <==> q <= m.client.pos {
      FromBoot(o, vs, Thread(Client), Reached(q));
    }
    if p < m.client.pos {
      assert Happens(o, BOOT, vs, Reached(m.client.pos), Thread(Client));
    }
  }

  // ---------------------------------------------------------------- what a return publishes

  lemma {:induction false} HistoryStays(o: Orders, m: Memory, vs: seq<Move>)
    requires Sized(m) && Runs(o, m, vs)
    ensures m.hist <= Last(o, m, vs).hist
    decreases |vs|
  {
    if vs != [] {
      HistoryStays(o, MemoryNext(o, m, vs[0]), vs[1..]);
    }
  }

  /** Happens-before is transitive up to the return of `idle`: all that a task knew when it
      completed, its own writes and what it had learned from whomever, the waiter knows once it
      has read a position not before that of its `fetch_sub`. */
  lemma CompletionIsPublished(o: Orders, m: Memory, i: nat, vs: seq<Move>, p: nat, w: Write)
    requires Coherent(o, m) && Releases(o.sub) && Acquires(o.load)
    requires Possible(m, Step(Act(i))) && m.core.tasks[i].counted && m.core.tasks[i].phase.prog.Return?
    requires Knows(m, Thread(Of(i)), Wrote(w)) && Runs(o, MemoryNext(o, m, Step(Act(i))), vs)
    requires var m' := Last(o, MemoryNext(o, m, Step(Act(i))), vs); Possible(m', LoadAt(p)) && |m.hist| <= p
    ensures var m' := Last(o, MemoryNext(o, m, Step(Act(i))), vs);
            Knows(MemoryNext(o, m', LoadAt(p)), Thread(Client), Wrote(w))
  {
    var m1 := MemoryNext(o, m, Step(Act(i)));
    ReleaseKeeps(o, m, i, w);
    CoherentRun(o, m1, vs);
    HistoryStays(o, m1, vs);
    ReachesLater(o, Last(o, m1, vs), |m.hist|, p, w);
  }

  /** Its release entry has all that the task knew. */
  lemma ReleaseKeeps(o: Orders, m: Memory, i: nat, w: Write)
    requires Coherent(o, m) && Releases(o.sub)
    requires Possible(m, Step(Act(i))) && m.core.tasks[i].counted && m.core.tasks[i].phase.prog.Return?
    requires Knows(m, Thread(Of(i)), Wrote(w))
    ensures var m1 := MemoryNext(o, m, Step(Act(i)));
            && Coherent(o, m1) && |m1.hist| == |m.hist| + 1
            && m1.hist[|m.hist|].release && w in m1.hist[|m.hist|].view.seen
  {
    CoherentMove(o, m, Step(Act(i)));
  }

  lemma ReachesLater(o: Orders, m: Memory, d: nat, p: nat, w: Write)
    requires Valued(m) && d <= p < |m.hist| && m.hist[d].release && w in m.hist[d].view.seen
    ensures w in Published(m.hist, p)
  {
    assert Heads(m.hist, d, p);
  }
}
