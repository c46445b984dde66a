/** The three read-write locks: for any number of threads running the program's handlers, some thread can always go
    on. */
module Locks {

  datatype Lock = TrackerMu | GraphMu | RegistryMu

  datatype Mode = Shared | Exclusive

  datatype Op = Acquire(lock: Lock, mode: Mode) | Release(lock: Lock)

  type LockProgram = seq<Op>

  /** What a thread holds after executing `ops`. */
  function Held(ops: LockProgram): map<Lock, Mode> {
    if ops == [] then map[]
    else
      var h := Held(ops[..|ops| - 1]);
      match ops[|ops| - 1]
      case Acquire(l, m) => h[l := m]
      case Release(l) => h - {l}
  }

  /** The registry may be taken inside the other two; those two never inside anything. */
  function Rank(l: Lock): nat { if l.RegistryMu? then 1 else 0 }

  predicate OrderedAt(p: LockProgram, i: nat)
    requires i < |p|
  {
    match p[i]
    case Acquire(l, _) => forall h :: h in Held(p[..i]) ==> Rank(h) < Rank(l)
    case Release(l) => l in Held(p[..i])
  }

  predicate Ordered(p: LockProgram) {
    (forall i :: 0 <= i < |p| ==> OrderedAt(p, i)) && Held(p) == map[]
  }

  // ---------- threads ----------

  /** A thread about to execute `program[pc]`; `waiting` once it has asked for the lock it needs. */
  datatype Thread = Thread(program: LockProgram, pc: nat, waiting: bool) {
    function Holds(): map<Lock, Mode> { if pc <= |program| then Held(program[..pc]) else map[] }

    predicate AtAcquire() { pc < |program| && program[pc].Acquire? }

    predicate AtRelease() { pc < |program| && program[pc].Release? }

    predicate WaitsFor(l: Lock) { waiting && AtAcquire() && program[pc].lock == l }

    /** In the middle of a handler. */
    predicate Busy() { waiting || 0 < pc < |program| }
  }

  type Threads = seq<Thread>

  /** No other thread holds the lock in a conflicting mode. */
  predicate Free(s: Threads, l: Lock, m: Mode) {
    forall j :: 0 <= j < |s| && l in s[j].Holds() ==> m.Shared? && s[j].Holds()[l].Shared?
  }

  /** The strictest policy: a reader also yields to every waiting writer. */
  predicate FreeBehindWriters(s: Threads, l: Lock, m: Mode) {
    && Free(s, l, m)
    && (m.Shared? ==> forall j :: 0 <= j < |s| && s[j].WaitsFor(l) ==> s[j].program[s[j].pc].mode.Shared?)
  }

  datatype Move =
    | Spawn(program: LockProgram)
    | Restart(thread: nat, next: LockProgram)
    | Request(thread: nat)
    | Grant(thread: nat)
    | Unlock(thread: nat)

  /** Grants follow no policy beyond exclusion, so every scheduling of the real locks is among these runs. */
  predicate CanMove(s: Threads, m: Move) {
    match m
    case Spawn(p) => true
    case Restart(i, p) => i < |s| && s[i].pc == |s[i].program| && !s[i].waiting
    case Request(i) => i < |s| && s[i].AtAcquire() && !s[i].waiting
    case Grant(i) => i < |s| && s[i].AtAcquire() && s[i].waiting
                     && Free(s, s[i].program[s[i].pc].lock, s[i].program[s[i].pc].mode)
    case Unlock(i) => i < |s| && s[i].AtRelease()
  }

  function Moved(s: Threads, m: Move): Threads
    requires CanMove(s, m)
  {
    match m
    case Spawn(p) => s + [Thread(p, 0, false)]
    case Restart(i, p) => s[i := Thread(p, 0, false)]
    case Request(i) => s[i := s[i].(waiting := true)]
    case Grant(i) => s[i := s[i].(pc := s[i].pc + 1, waiting := false)]
    case Unlock(i) => s[i := s[i].(pc := s[i].pc + 1)]
  }

  /** Only ordered programs are started. */
  predicate StartsOrdered(m: Move) {
    match m
    case Spawn(p) => Ordered(p)
    case Restart(_, p) => Ordered(p)
    case _ => true
  }

  ghost predicate IsRun(s: Threads, ms: seq<Move>)
    decreases ms
  {
    ms == [] || (CanMove(s, ms[0]) && IsRun(Moved(s, ms[0]), ms[1..]))
  }

  ghost function After(s: Threads, ms: seq<Move>): Threads
    requires IsRun(s, ms)
    decreases ms
  {
    if ms == [] then s else After(Moved(s, ms[0]), ms[1..])
  }

  /** A thread in the middle of a handler that can go on even if readers yield to every waiting writer. */
  predicate CanGoOn(s: Threads, i: nat) {
    && i < |s| && s[i].Busy()
    && (|| (s[i].AtAcquire() && !s[i].waiting)
        || s[i].AtRelease()
        || (s[i].AtAcquire() && s[i].waiting
            && FreeBehindWriters(s, s[i].program[s[i].pc].lock, s[i].program[s[i].pc].mode)))
  }

  // ---------- invariants ----------

  predicate WellFormed(t: Thread) {
    Ordered(t.program) && t.pc <= |t.program| && (t.waiting ==> t.AtAcquire())
  }

  ghost predicate Sound(s: Threads) { forall i :: 0 <= i < |s| ==> WellFormed(s[i]) }

  /** A writer is alone. */
  ghost predicate Exclusion(s: Threads) {
    forall i, j, l :: 0 <= i < |s| && 0 <= j < |s| && i != j && l in s[i].Holds() && l in s[j].Holds()
      ==> s[i].Holds()[l].Shared?
  }

  lemma HoldsNext(t: Thread)
    requires t.pc < |t.program|
    ensures t.(pc := t.pc + 1, waiting := false).Holds()
         == match t.program[t.pc] case Acquire(l, m) => t.Holds()[l := m] case Release(l) => t.Holds() - {l}
  {
    assert t.program[..t.pc + 1][..t.pc] == t.program[..t.pc];
  }

  lemma StepKeepsSound(s: Threads, m: Move)
    requires CanMove(s, m) && StartsOrdered(m) && Sound(s)
    ensures Sound(Moved(s, m))
  {
    hide Ordered;
  }

  /** One thread's locks change: nobody new is shut out if what it gains was free. */
  lemma OneThreadKeepsExclusion(s: Threads, i: nat, t: Thread)
    requires Exclusion(s) && i < |s|
    requires forall l :: l in t.Holds() ==>
      (l in s[i].Holds() && t.Holds()[l] == s[i].Holds()[l]) || Free(s, l, t.Holds()[l])
    ensures Exclusion(s[i := t])
  {
    var s' := s[i := t];
    forall a, b, l | 0 <= a < |s'| && 0 <= b < |s'| && a != b && l in s'[a].Holds() && l in s'[b].Holds()
      ensures s'[a].Holds()[l].Shared?
    {
      hide Thread.Holds;
      if a != i && b != i {
        assert s[a].Holds()[l].Shared?;
      } else if a == i {
        assert l in s[b].Holds();
      } else {
        assert l in s[a].Holds();
      }
    }
  }

  lemma NewThreadKeepsExclusion(s: Threads, t: Thread)
    requires Exclusion(s) && t.Holds() == map[]
    ensures Exclusion(s + [t])
  {
    hide Thread.Holds;
  }

  lemma SameHolds(t: Thread)
    ensures t.(waiting := true).Holds() == t.Holds()
  {
  }

  lemma StartsEmpty(p: LockProgram)
    ensures Thread(p, 0, false).Holds() == map[]
  {
  }

  lemma StepKeepsExclusion(s: Threads, m: Move)
    requires CanMove(s, m) && StartsOrdered(m) && Sound(s) && Exclusion(s)
    ensures Exclusion(Moved(s, m))
  {
    hide Ordered, Held, Exclusion, Thread.Holds;
    match m
    case Spawn(p) => StartsEmpty(p); NewThreadKeepsExclusion(s, Thread(p, 0, false));
    case Restart(i, p) => StartsEmpty(p); OneThreadKeepsExclusion(s, i, Thread(p, 0, false));
    case Request(i) => SameHolds(s[i]); OneThreadKeepsExclusion(s, i, s[i].(waiting := true));
    case Grant(i) => HoldsNext(s[i]); OneThreadKeepsExclusion(s, i, s[i].(pc := s[i].pc + 1, waiting := false));
    case Unlock(i) =>
      assert !s[i].waiting;
      HoldsNext(s[i]);
      assert s[i].(pc := s[i].pc + 1) == s[i].(pc := s[i].pc + 1, waiting := false);
      OneThreadKeepsExclusion(s, i, s[i].(pc := s[i].pc + 1));
  }

  lemma {:induction false} RunKeeps(s: Threads, ms: seq<Move>)
    requires IsRun(s, ms) && Sound(s) && Exclusion(s)
    requires forall i :: 0 <= i < |ms| ==> StartsOrdered(ms[i])
    ensures Sound(After(s, ms)) && Exclusion(After(s, ms))
    decreases ms
  {
    hide Sound, Exclusion, CanMove, Moved, StartsOrdered;
    if ms == [] {
    } else {
      StepKeepsSound(s, ms[0]);
      StepKeepsExclusion(s, ms[0]);
      RunKeeps(Moved(s, ms[0]), ms[1..]);
    }
  }

  // ---------- progress ----------

  /** If a lock is held by nobody and wanted by somebody, some waiter gets it under any policy. */
  lemma WaiterGoesOn(s: Threads, l: Lock, i: nat) returns (j: nat)
    requires i < |s| && s[i].WaitsFor(l)
    requires forall n :: 0 <= n < |s| ==> l !in s[n].Holds()
    ensures CanGoOn(s, j)
  {
    j := i;
    if n :| 0 <= n < |s| && s[n].WaitsFor(l) && s[n].program[s[n].pc].mode.Exclusive? {
      j := n;
    }
  }

  /** A holder is never past the end of its program. */
  lemma HolderIsMidway(t: Thread, l: Lock)
    requires WellFormed(t) && l in t.Holds()
    ensures 0 < t.pc < |t.program| && OrderedAt(t.program, t.pc)
    ensures t.AtRelease() || (t.AtAcquire() && Rank(l) < Rank(t.program[t.pc].lock))
  {
    assert t.program[..|t.program|] == t.program;
  }

  lemma NothingToRelease(t: Thread)
    requires WellFormed(t) && t.pc < |t.program| && (forall l :: l !in t.Holds())
    ensures t.AtAcquire()
  {
    assert OrderedAt(t.program, t.pc) && t.program[t.pc].lock !in t.Holds();
  }

  lemma SomeThreadGoesOn(s: Threads, i: nat) returns (j: nat)
    requires Sound(s) && i < |s| && s[i].Busy()
    ensures CanGoOn(s, j)
  {
    hide Held, Ordered;
    if n, l :| 0 <= n < |s| && l in s[n].Holds() && Rank(l) == 1 {
      HolderIsMidway(s[n], l);
      return n;
    }
    if n :| 0 <= n < |s| && s[n].WaitsFor(RegistryMu) {
      assert Rank(RegistryMu) == 1;
      j := WaiterGoesOn(s, RegistryMu, n);
      return;
    }
    if n, l :| 0 <= n < |s| && l in s[n].Holds() {
      HolderIsMidway(s[n], l);
      return n;
    }
    if s[i].waiting {
      j := WaiterGoesOn(s, s[i].program[s[i].pc].lock, i);
    } else {
      NothingToRelease(s[i]);
      j := i;
    }
  }

  /** Deadlock freedom: over every run that only starts ordered programs, whenever some thread is inside a handler, some
      thread inside a handler can go on. */
  lemma DeadlockFree(ms: seq<Move>, i: nat) returns (j: nat)
    requires IsRun([], ms) && forall n :: 0 <= n < |ms| ==> StartsOrdered(ms[n])
    requires i < |After([], ms)| && After([], ms)[i].Busy()
    ensures CanGoOn(After([], ms), j)
  {
    RunKeeps([], ms);
    j := SomeThreadGoesOn(After([], ms), i);
  }

  // ---------- the handlers ----------

  /** Which locks each loop of the program takes. The flags say whether the registry is reached, and whether a close
      finds an open flow; `n` is the number of stale flows found. */
  datatype Handler =
    | ConnectHandler(client: bool)
    | AcceptHandler
    | CloseHandler(finishes: bool, client: bool)
    | StaleHandler(n: nat)
    | CleanupHandler
    | PrintGraph
    | PrintFlows
    | GraphResponse(withRegistry: bool)
    | MetricsResponse

  function Section(l: Lock, m: Mode): LockProgram { [Acquire(l, m), Release(l)] }

  /** The registry inside another lock. */
  function WithRegistry(l: Lock, m: Mode): LockProgram {
    [Acquire(l, m), Acquire(RegistryMu, m), Release(RegistryMu), Release(l)]
  }

  function Repeated(n: nat): LockProgram {
    if n == 0 then [] else Repeated(n - 1) + Section(GraphMu, Exclusive)
  }

  function ProgramOf(h: Handler): LockProgram {
    match h
    case ConnectHandler(client) =>
      (if client then Section(RegistryMu, Exclusive) else [])
      + (Section(TrackerMu, Exclusive) + Section(GraphMu, Exclusive))
    case AcceptHandler => Section(TrackerMu, Exclusive)
    case CloseHandler(finishes, client) =>
      if !finishes then Section(TrackerMu, Exclusive)
      else (if client then WithRegistry(TrackerMu, Exclusive) else Section(TrackerMu, Exclusive))
           + Section(GraphMu, Exclusive)
    case StaleHandler(n) => Section(TrackerMu, Exclusive) + Repeated(n)
    case CleanupHandler => Section(TrackerMu, Exclusive)
    case PrintGraph => Section(GraphMu, Shared)
    case PrintFlows => Section(TrackerMu, Shared)
    case GraphResponse(withRegistry) => if withRegistry then WithRegistry(GraphMu, Shared) else Section(GraphMu, Shared)
    case MetricsResponse => Section(GraphMu, Shared)
  }

  lemma {:induction false} HeldConcat(a: LockProgram, b: LockProgram)
    requires Held(a) == map[]
    ensures Held(a + b) == Held(b)
  {
    if b == [] {
      assert a + b == a;
    } else {
      assert (a + b)[..|a + b| - 1] == a + b[..|b| - 1];
      HeldConcat(a, b[..|b| - 1]);
    }
  }

  lemma OrderedConcat(a: LockProgram, b: LockProgram)
    requires Ordered(a) && Ordered(b)
    ensures Ordered(a + b)
  {
    HeldConcat(a, b);
    forall i | 0 <= i < |a + b| ensures OrderedAt(a + b, i) {
      if i < |a| {
        assert (a + b)[..i] == a[..i] && OrderedAt(a, i);
      } else {
        assert (a + b)[..i] == a + b[..i - |a|] && OrderedAt(b, i - |a|);
        HeldConcat(a, b[..i - |a|]);
      }
    }
  }

  lemma SectionsOrdered(l: Lock, m: Mode)
    ensures Ordered([]) && Ordered(Section(l, m))
    ensures !l.RegistryMu? ==> Ordered(WithRegistry(l, m))
  {
    var s := Section(l, m);
    assert s[..0] == [] && s[..1] == [Acquire(l, m)] && s[..2] == s;
    var w := WithRegistry(l, m);
    assert w[..0] == [] && w[..1] == [w[0]] && w[..2] == [w[0], w[1]] && w[..3] == [w[0], w[1], w[2]] && w[..4] == w;
    assert Held(w[..1]) == map[l := m];
    assert w[..2][..1] == w[..1] && Held(w[..2]) == map[l := m][RegistryMu := m];
    assert w[..3][..2] == w[..2] && Held(w[..3]) == Held(w[..2]) - {RegistryMu};
    assert Held(w) == Held(w[..3]) - {l};
  }

  lemma {:induction false} RepeatedOrdered(n: nat)
    ensures Ordered(Repeated(n))
  {
    SectionsOrdered(GraphMu, Exclusive);
    if n == 0 {
    } else {
      RepeatedOrdered(n - 1);
      OrderedConcat(Repeated(n - 1), Section(GraphMu, Exclusive));
    }
  }

  /** Every handler takes the locks in order: the tracker and graph locks are never held together. */
  lemma HandlersAreOrdered(h: Handler)
    ensures Ordered(ProgramOf(h))
  {
    hide Ordered, Section, WithRegistry;
    SectionsOrdered(TrackerMu, Exclusive);
    SectionsOrdered(TrackerMu, Shared);
    SectionsOrdered(GraphMu, Exclusive);
    SectionsOrdered(GraphMu, Shared);
    SectionsOrdered(RegistryMu, Exclusive);
    match h
    case ConnectHandler(client) =>
      OrderedConcat(Section(TrackerMu, Exclusive), Section(GraphMu, Exclusive));
      OrderedConcat(if client then Section(RegistryMu, Exclusive) else [],
                    Section(TrackerMu, Exclusive) + Section(GraphMu, Exclusive));
    case CloseHandler(finishes, client) =>
      OrderedConcat(if client then WithRegistry(TrackerMu, Exclusive) else Section(TrackerMu, Exclusive),
                    Section(GraphMu, Exclusive));
    case StaleHandler(n) =>
      RepeatedOrdered(n);
      OrderedConcat(Section(TrackerMu, Exclusive), Repeated(n));
    case _ =>
  }

  /** What a handler changes: the tracker's flows, the graph's edges, the registry's entries. */
  function Changes(h: Handler): set<Lock> {
    match h
    case ConnectHandler(client) => {TrackerMu, GraphMu} + (if client then {RegistryMu} else {})
    case AcceptHandler => {TrackerMu}
    case CloseHandler(finishes, client) =>
      {TrackerMu} + (if finishes then {GraphMu} else {}) + (if finishes && client then {RegistryMu} else {})
    case StaleHandler(n) => {TrackerMu} + (if n > 0 then {GraphMu} else {})
    case CleanupHandler => {TrackerMu}
    case _ => {}
  }

  /** What a handler only looks at. */
  function Reads(h: Handler): set<Lock> {
    match h
    case PrintGraph => {GraphMu}
    case PrintFlows => {TrackerMu}
    case GraphResponse(withRegistry) => {GraphMu} + (if withRegistry then {RegistryMu} else {})
    case MetricsResponse => {GraphMu}
    case _ => {}
  }

  predicate Takes(p: LockProgram, l: Lock, m: Mode) { exists i :: 0 <= i < |p| && p[i] == Acquire(l, m) }

  lemma TakesConcat(a: LockProgram, b: LockProgram, l: Lock, m: Mode)
    ensures Takes(a + b, l, m) <==> Takes(a, l, m) || Takes(b, l, m)
  {
    assert forall i :: 0 <= i < |a| ==> (a + b)[i] == a[i];
    assert forall i :: 0 <= i < |b| ==> (a + b)[|a| + i] == b[i];
  }

  lemma SectionTakes(l: Lock, m: Mode, l': Lock, m': Mode)
    ensures Takes(Section(l, m), l', m') <==> l' == l && m' == m
    ensures Takes(WithRegistry(l, m), l', m') <==> (l' == l || l' == RegistryMu) && m' == m
    ensures !Takes([], l', m')
  {
    assert Section(l, m)[0] == Acquire(l, m);
    var w := WithRegistry(l, m);
    assert w[0] == Acquire(l, m) && w[1] == Acquire(RegistryMu, m);
  }

  lemma {:induction false} RepeatedTakes(n: nat, l: Lock, m: Mode)
    ensures Takes(Repeated(n), l, m) <==> n > 0 && l == GraphMu && m == Exclusive
  {
    SectionTakes(GraphMu, Exclusive, l, m);
    if n == 0 {
    } else {
      RepeatedTakes(n - 1, l, m);
      TakesConcat(Repeated(n - 1), Section(GraphMu, Exclusive), l, m);
    }
  }

  lemma HandlerTakes(h: Handler, l: Lock, m: Mode)
    ensures Takes(ProgramOf(h), l, m) <==> if m.Exclusive? then l in Changes(h) else l in Reads(h)
  {
    hide Takes, Section, WithRegistry, Repeated;
    SectionTakes(TrackerMu, Exclusive, l, m);
    SectionTakes(TrackerMu, Shared, l, m);
    SectionTakes(GraphMu, Exclusive, l, m);
    SectionTakes(GraphMu, Shared, l, m);
    SectionTakes(RegistryMu, Exclusive, l, m);
    var t, g := Section(TrackerMu, Exclusive), Section(GraphMu, Exclusive);
    match h
    case ConnectHandler(client) =>
      TakesConcat(t, g, l, m);
      TakesConcat(if client then Section(RegistryMu, Exclusive) else [], t + g, l, m);
    case CloseHandler(finishes, client) =>
      TakesConcat(if client then WithRegistry(TrackerMu, Exclusive) else t, g, l, m);
    case StaleHandler(n) =>
      RepeatedTakes(n, l, m);
      TakesConcat(t, Repeated(n), l, m);
    case _ =>
  }

  /** A handler takes exclusively exactly the locks of what it changes, and shared exactly those of what it only
      reads. */
  lemma WritersTakeExclusively(h: Handler, l: Lock)
    ensures Takes(ProgramOf(h), l, Exclusive) <==> l in Changes(h)
    ensures Takes(ProgramOf(h), l, Shared) <==> l in Reads(h)
  {
    HandlerTakes(h, l, Exclusive);
    HandlerTakes(h, l, Shared);
  }

  /** Moves that start nothing but the program's own handlers. */
  ghost predicate StartsHandler(m: Move) {
    match m
    case Spawn(p) => exists h :: p == ProgramOf(h)
    case Restart(_, p) => exists h :: p == ProgramOf(h)
    case _ => true
  }

  /** The program never deadlocks, with any number of API and WebSocket readers coming and going. */
  lemma ProgramNeverDeadlocks(ms: seq<Move>, i: nat) returns (j: nat)
    requires IsRun([], ms) && forall n :: 0 <= n < |ms| ==> StartsHandler(ms[n])
    requires i < |After([], ms)| && After([], ms)[i].Busy()
    ensures CanGoOn(After([], ms), j)
  {
    forall n | 0 <= n < |ms| ensures StartsOrdered(ms[n]) {
      match ms[n]
      case Spawn(p) => var h :| p == ProgramOf(h); HandlersAreOrdered(h);
      case Restart(_, p) => var h :| p == ProgramOf(h); HandlersAreOrdered(h);
      case _ =>
    }
    j := DeadlockFree(ms, i);
  }

  /** A writer never shares a lock, so each critical section is atomic for the data its lock guards. */
  lemma WritersAreAlone(ms: seq<Move>)
    requires IsRun([], ms) && forall n :: 0 <= n < |ms| ==> StartsOrdered(ms[n])
    ensures Exclusion(After([], ms))
  {
    RunKeeps([], ms);
  }

  lemma Before(s: Threads, m: Move, next: Threads, rest: seq<Move>)
    requires CanMove(s, m) && Moved(s, m) == next && IsRun(next, rest)
    ensures IsRun(s, [m] + rest) && After(s, [m] + rest) == After(next, rest)
  {
    assert ([m] + rest)[1..] == rest;
  }

  lemma HoldsFirst(a: LockProgram)
    requires a != [] && a[0].Acquire?
    ensures forall waiting :: Thread(a, 0, waiting).Holds() == map[]
    ensures forall waiting :: Thread(a, 1, waiting).Holds() == map[a[0].lock := a[0].mode]
  {
    assert a[..0] == [] && a[..1][..0] == [];
    assert Held(a[..1]) == map[a[0].lock := a[0].mode];
  }

  /** Two threads each take their first lock and then ask for a second. */
  lemma TakeThenAsk(a: LockProgram, b: LockProgram) returns (ms: seq<Move>)
    requires |a| >= 2 && |b| >= 2 && a[0].Acquire? && b[0].Acquire? && a[0].lock != b[0].lock
    requires a[1].Acquire? && b[1].Acquire?
    ensures IsRun([], ms) && After([], ms) == [Thread(a, 1, true), Thread(b, 1, true)]
  {
    assert a[..0] == [] && b[..0] == [] && a[..1] == [a[0]] && b[..1] == [b[0]];
    var end := [Thread(a, 1, true), Thread(b, 1, true)];
    HoldsFirst(a);
    HoldsFirst(b);
    var s := end;
    ms := [];
    Before([Thread(a, 1, true), Thread(b, 1, false)], Request(1), s, ms);
    ms, s := [Request(1)] + ms, [Thread(a, 1, true), Thread(b, 1, false)];
    Before([Thread(a, 1, false), Thread(b, 1, false)], Request(0), s, ms);
    ms, s := [Request(0)] + ms, [Thread(a, 1, false), Thread(b, 1, false)];
    Before([Thread(a, 1, false), Thread(b, 0, true)], Grant(1), s, ms);
    ms, s := [Grant(1)] + ms, [Thread(a, 1, false), Thread(b, 0, true)];
    Before([Thread(a, 1, false), Thread(b, 0, false)], Request(1), s, ms);
    ms, s := [Request(1)] + ms, [Thread(a, 1, false), Thread(b, 0, false)];
    Before([Thread(a, 0, true), Thread(b, 0, false)], Grant(0), s, ms);
    ms, s := [Grant(0)] + ms, [Thread(a, 0, true), Thread(b, 0, false)];
    Before([Thread(a, 0, false), Thread(b, 0, false)], Request(0), s, ms);
    ms, s := [Request(0)] + ms, [Thread(a, 0, false), Thread(b, 0, false)];
    Before([Thread(a, 0, false)], Spawn(b), s, ms);
    ms, s := [Spawn(b)] + ms, [Thread(a, 0, false)];
    Before([], Spawn(a), s, ms);
    ms := [Spawn(a)] + ms;
  }

  /** Why the two locks must not be nested: one thread taking tracker then graph and one taking them the other way round
      reach a state where neither can go on, under any policy. */
  lemma NestingBothWaysDeadlocks() returns (ms: seq<Move>)
    ensures IsRun([], ms) && |After([], ms)| == 2 && After([], ms)[0].Busy()
    ensures forall j :: !CanGoOn(After([], ms), j)
  {
    var a := [Acquire(TrackerMu, Exclusive), Acquire(GraphMu, Exclusive), Release(GraphMu), Release(TrackerMu)];
    var b := [Acquire(GraphMu, Exclusive), Acquire(TrackerMu, Exclusive), Release(TrackerMu), Release(GraphMu)];
    ms := TakeThenAsk(a, b);
    var end := After([], ms);
    HoldsFirst(a);
    HoldsFirst(b);
    assert end[0].Holds() == map[TrackerMu := Exclusive] && end[1].Holds() == map[GraphMu := Exclusive];
  }
}
