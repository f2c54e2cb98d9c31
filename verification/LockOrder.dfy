/** Threads that acquire resources in rank order never deadlock.

    Resources are semaphore slots, start locks, the shared read-write mutex, the stop-all counter's mutex, the read-write
    mutex of the metrics registry, and mutexes under which nothing else is locked. A thread is the rest of its program and
    what it holds. */
module LockOrder {

  datatype Resource = Slot(id: nat) | StartLock(id: nat) | Shared | StopCount(id: nat) | Registry | Leaf(id: nat)

  datatype Mode = Read | Write

  datatype Task = Probing | Inspecting | Starting | Stopping | Notifying

  /** What a thread does between its lock operations: it reads or writes what `r` protects, or talks to a container or a
      webhook, under the container's start lock or without it. */
  datatype Work =
    | Look(r: Resource)
    | Change(r: Resource)
    | Locked(lock: nat, task: Task)
    | Free(task: Task)
    | Other

  datatype Instr =
    | Acquire(r: Resource, mode: Mode)
    | Release(r: Resource)
    | Call(work: Work)
    | Go(spawn: set<nat>)
    | Join(await: set<nat>)

  datatype Held = Held(r: Resource, mode: Mode)

  datatype Thread = Thread(started: bool, held: seq<Held>, spawned: set<nat>, rest: seq<Instr>)

  type System = seq<Thread>

  const SLOTS: nat := 8

  function Rank(r: Resource): nat {
    match r
    case Slot(_) => 0
    case StartLock(_) => 1
    case Shared => 2
    case StopCount(_) => 3
    case Registry => 4
    case Leaf(_) => 5
  }

  /** Everything held ranks below `r`. */
  predicate Above(held: seq<Held>, r: Resource) {
    forall h | h in held :: Rank(h.r) < Rank(r)
  }

  /** The lock that the work needs is held. */
  predicate Guarded(w: Work, held: seq<Held>) {
    match w
    case Look(r) => Held(r, Read) in held || Held(r, Write) in held
    case Change(r) => Held(r, Write) in held
    case Locked(l, _) => Held(StartLock(l), Write) in held
    case _ => true
  }

  datatype Scan = Bad | Good(held: seq<Held>, spawned: set<nat>)

  /** Whether a program keeps the discipline, and what it holds afterwards: acquire upwards in rank, release
      the latest acquisition, work under the lock that protects it, wait for spawned threads only with empty hands. */
  function After(p: seq<Instr>, held: seq<Held>, spawned: set<nat>): Scan {
    if p == [] then Good(held, spawned)
    else
      match p[0]
      case Acquire(r, m) => if Above(held, r) then After(p[1..], held + [Held(r, m)], spawned) else Bad
      case Release(r) =>
        if held != [] && held[|held| - 1].r == r then After(p[1..], held[..|held| - 1], spawned) else Bad
      case Call(w) => if Guarded(w, held) then After(p[1..], held, spawned) else Bad
      case Go(ws) => After(p[1..], held, spawned + ws)
      case Join(ws) => if held == [] && ws <= spawned then After(p[1..], held, spawned) else Bad
  }

  predicate Disciplined(p: seq<Instr>, held: seq<Held>, spawned: set<nat>) {
    After(p, held, spawned).Good? && After(p, held, spawned).held == []
  }

  predicate Joinless(p: seq<Instr>) {
    forall i | i in p :: !i.Join?
  }

  predicate Holds(t: Thread, r: Resource) {
    Held(r, Read) in t.held || Held(r, Write) in t.held
  }

  ghost function Holders(sys: System, r: Resource): set<nat> {
    set i | 0 <= i < |sys| && Holds(sys[i], r)
  }

  predicate Unfinished(t: Thread) {
    t.started && t.rest != []
  }

  /** What the primitives allow at all: a mutex excludes, a read lock excludes writers, a slot is one of eight. */
  ghost predicate MayStep(sys: System, i: nat) {
    && i < |sys| && Unfinished(sys[i])
    && match sys[i].rest[0]
       case Acquire(Slot(k), _) => |Holders(sys, Slot(k))| < SLOTS
       case Acquire(r, Write) => Holders(sys, r) == {}
       case Acquire(r, Read) => forall j | 0 <= j < |sys| :: Held(r, Write) !in sys[j].held
       case Join(ws) => forall w | w in ws :: w < |sys| && sys[w].started && sys[w].rest == []
       case _ => true
  }

  /** What they guarantee: a read lock may additionally have to wait for every writer that is waiting. */
  ghost predicate MustStep(sys: System, i: nat) {
    && MayStep(sys, i)
    && (sys[i].rest[0].Acquire? && sys[i].rest[0].mode == Read && !sys[i].rest[0].r.Slot? ==>
          forall j | 0 <= j < |sys| :: !(Unfinished(sys[j]) && sys[j].rest[0] == Acquire(sys[i].rest[0].r, Write)))
  }

  function Perform(t: Thread): Thread
    requires t.rest != []
  {
    match t.rest[0]
    case Acquire(r, m) => t.(held := t.held + [Held(r, m)], rest := t.rest[1..])
    case Release(_) => t.(held := if t.held == [] then [] else t.held[..|t.held| - 1], rest := t.rest[1..])
    case Go(ws) => t.(spawned := t.spawned + ws, rest := t.rest[1..])
    case _ => t.(rest := t.rest[1..])
  }

  function Start(t: Thread, yes: bool): Thread {
    if yes then t.(started := true) else t
  }

  function StepOf(sys: System, i: nat): System
    requires i < |sys| && sys[i].rest != []
  {
    var moved := sys[i := Perform(sys[i])];
    if sys[i].rest[0].Go? then seq(|sys|, (j: nat) requires j < |sys| => Start(moved[j], j in sys[i].rest[0].spawn))
    else moved
  }

  /** A step of the system: a thread performs its next instruction, or the environment starts a thread. */
  ghost predicate Next(sys: System, sys': System) {
    || (exists i :: MayStep(sys, i) && sys' == StepOf(sys, i))
    || (exists i :: 0 <= i < |sys| && sys' == sys[i := Start(sys[i], true)])
  }

  predicate AllStarted(sys: System, ws: set<nat>) {
    forall w | w in ws :: w < |sys| && sys[w].started
  }

  /** A program spawns threads that exist and waits for joinless ones only. */
  ghost predicate Sound(sys: System, rest: seq<Instr>) {
    forall n | 0 <= n < |rest| ::
      && (rest[n].Go? ==> forall w | w in rest[n].spawn :: w < |sys|)
      && (rest[n].Join? ==> forall w | w in rest[n].await :: w < |sys| && Joinless(sys[w].rest))
  }

  /** Every thread keeps the discipline, nobody holds anything before it starts, spawned threads are started, and
      only joinless threads are waited for. */
  ghost predicate Inv(sys: System) {
    && (forall i | 0 <= i < |sys| :: Disciplined(sys[i].rest, sys[i].held, sys[i].spawned))
    && (forall i | 0 <= i < |sys| && sys[i].held != [] :: sys[i].started)
    && (forall i | 0 <= i < |sys| :: AllStarted(sys, sys[i].spawned))
    && (forall i | 0 <= i < |sys| :: Sound(sys, sys[i].rest))
  }

  /** The locks do what locks are for. */
  ghost predicate Exclusive(sys: System) {
    && (forall i | 0 <= i < |sys| :: forall a, b | 0 <= a < b < |sys[i].held| :: Rank(sys[i].held[a].r) < Rank(sys[i].held[b].r))
    && (forall k :: |Holders(sys, Slot(k))| <= SLOTS)
    && (forall i, j, r: Resource | 0 <= i < |sys| && 0 <= j < |sys| && i != j && !r.Slot? && Held(r, Write) in sys[i].held ::
          !Holds(sys[j], r))
  }

  /** What a step leaves of a thread. */
  lemma StepThread(sys: System, i: nat, j: nat)
    requires i < |sys| && sys[i].rest != [] && j < |sys|
    ensures |StepOf(sys, i)| == |sys|
    ensures var was, t := if j == i then Perform(sys[j]) else sys[j], StepOf(sys, i)[j];
            t.rest == was.rest && t.held == was.held && t.spawned == was.spawned && (sys[j].started ==> t.started)
  {
  }

  lemma PerformDisciplined(t: Thread)
    requires t.rest != [] && Disciplined(t.rest, t.held, t.spawned)
    ensures Disciplined(Perform(t).rest, Perform(t).held, Perform(t).spawned)
  {
  }

  lemma InvStep(sys: System, i: nat)
    requires Inv(sys) && MayStep(sys, i)
    ensures Inv(StepOf(sys, i))
  {
    PerformDisciplined(sys[i]);
    var sys' := StepOf(sys, i);
    forall j | 0 <= j < |sys'|
      ensures Disciplined(sys'[j].rest, sys'[j].held, sys'[j].spawned)
      ensures sys[j].started ==> sys'[j].started
      ensures sys'[j].rest == sys[j].rest || sys'[j].rest == sys[j].rest[1..]
      ensures sys'[j].held != [] ==> sys'[j].started
    {
    }
    forall j | 0 <= j < |sys'|
      ensures AllStarted(sys', sys'[j].spawned)
    {
      assert AllStarted(sys, sys[j].spawned);
      forall w | w in sys'[j].spawned
        ensures w < |sys'| && sys'[w].started
      {
        if w !in sys[j].spawned {
          assert j == i && sys[i].rest[0].Go? && w in sys[i].rest[0].spawn;
        }
      }
    }
    forall j | 0 <= j < |sys'|
      ensures Sound(sys', sys'[j].rest)
    {
      assert Sound(sys, sys[j].rest);
    }
  }

  lemma LaunchInv(sys: System, i: nat)
    requires Inv(sys) && i < |sys|
    ensures Inv(sys[i := Start(sys[i], true)])
  {
    var sys' := sys[i := Start(sys[i], true)];
    forall j | 0 <= j < |sys'|
      ensures sys'[j].rest == sys[j].rest && sys'[j].held == sys[j].held && sys'[j].spawned == sys[j].spawned
      ensures sys[j].started ==> sys'[j].started
      ensures AllStarted(sys', sys'[j].spawned)
    {
      assert AllStarted(sys, sys[j].spawned);
    }
    forall j | 0 <= j < |sys'|
      ensures Sound(sys', sys'[j].rest)
    {
      assert Sound(sys, sys[j].rest);
    }
  }

  /** How blocked a thread is: the higher, the closer to the top of the lock order. */
  function Level(instr: Instr): nat {
    match instr
    case Join(_) => 0
    case Acquire(r, m) => 2 * (1 + Rank(r)) + (if m == Write then 1 else 0)
    case _ => 100
  }

  /** A thread that holds something never waits for anything that ranks no higher. */
  lemma HolderIsHigher(t: Thread, r: Resource)
    requires Disciplined(t.rest, t.held, t.spawned) && Holds(t, r)
    ensures t.rest != [] && Level(t.rest[0]) > 2 * (1 + Rank(r)) + 1
  {
  }

  /** Whoever waits, waits for somebody who can go on: from any unfinished thread a thread that can step is found
      by following who blocks whom. */
  lemma Progress(sys: System, i: nat) returns (j: nat)
    requires Inv(sys) && i < |sys| && Unfinished(sys[i])
    ensures MustStep(sys, j)
    decreases 100 - Level(sys[i].rest[0])
  {
    var t := sys[i];
    assert Disciplined(t.rest, t.held, t.spawned);
    if MustStep(sys, i) {
      return i;
    }
    match t.rest[0]
    case Join(ws) =>
      var w :| w in ws && !(w < |sys| && sys[w].started && sys[w].rest == []);
      assert AllStarted(sys, t.spawned) && w in t.spawned && t.rest[0].Join?;
      assert Sound(sys, t.rest) && Joinless(sys[w].rest) && sys[w].rest[0] in sys[w].rest;
      j := Progress(sys, w);
    case Acquire(r, m) =>
      if k :| 0 <= k < |sys| && Holds(sys[k], r) {
        HolderIsHigher(sys[k], r);
        j := Progress(sys, k);
      } else {
        assert Holders(sys, r) == {};
        assert MayStep(sys, i);
        var k :| 0 <= k < |sys| && Unfinished(sys[k]) && sys[k].rest[0] == Acquire(r, Write);
        j := Progress(sys, k);
      }
    case _ =>
  }

  /** Before anything has started: nobody holds anything. */
  ghost predicate Fresh(sys: System) {
    && (forall i | 0 <= i < |sys| :: !sys[i].started && sys[i].held == [] && sys[i].spawned == {})
  }

  ghost predicate Path(states: seq<System>) {
    && states != []
    && (forall n | 0 <= n < |states| - 1 :: Next(states[n], states[n + 1]))
  }

  lemma {:induction false} NextInv(sys: System, sys': System)
    requires Inv(sys) && Next(sys, sys')
    ensures Inv(sys')
  {
    if i :| MayStep(sys, i) && sys' == StepOf(sys, i) {
      InvStep(sys, i);
    } else {
      var i :| 0 <= i < |sys| && sys' == sys[i := Start(sys[i], true)];
      LaunchInv(sys, i);
    }
  }

  /** A run without its last state, and that last step. */
  lemma Shorter(states: seq<System>) returns (before: seq<System>, sys: System, sys': System)
    requires Path(states) && |states| > 1
    ensures before == states[..|states| - 1] && Path(before) && before[0] == states[0]
    ensures sys == before[|before| - 1] && sys' == states[|states| - 1] && Next(sys, sys')
  {
    var n := |states| - 1;
    before, sys, sys' := states[..n], states[n - 1], states[n];
  }

  lemma {:induction false} PathInv(states: seq<System>)
    requires Path(states) && Inv(states[0])
    ensures Inv(states[|states| - 1])
    decreases |states|
  {
    if |states| > 1 {
      var before, sys, sys' := Shorter(states);
      PathInv(before);
      NextInv(sys, sys');
    }
  }

  /** Deadlock freedom: in every reachable state with a started, unfinished thread, some started thread is able to
      step, even if a waiting writer keeps new readers out. */
  lemma DeadlockFree(states: seq<System>, sys: System, i: nat)
    requires Path(states) && Inv(states[0]) && sys == states[|states| - 1]
    requires i < |sys| && Unfinished(sys[i])
    ensures exists j :: MustStep(sys, j)
  {
    PathInv(states);
    var j := Progress(sys, i);
  }

  lemma Ascending(sys: System, i: nat)
    requires Exclusive(sys) && Inv(sys) && MayStep(sys, i)
    ensures var held := Perform(sys[i]).held;
            forall a, b | 0 <= a < b < |held| :: Rank(held[a].r) < Rank(held[b].r)
  {
    assert Disciplined(sys[i].rest, sys[i].held, sys[i].spawned);
  }

  predicate Acquires(t: Thread, r: Resource) {
    t.rest != [] && t.rest[0].Acquire? && t.rest[0].r == r
  }

  lemma AcquiredHolds(t: Thread, r: Resource)
    requires Acquires(t, r)
    ensures Holds(Perform(t), r)
  {
    var held := Perform(t).held;
    assert held[|held| - 1] == Held(r, t.rest[0].mode);
    assert held[|held| - 1] in held;
    match t.rest[0].mode
    case Read => assert Held(r, Read) in held;
    case Write => assert Held(r, Write) in held;
  }

  lemma OthersHold(sys: System, i: nat)
    requires i < |sys| && sys[i].rest != []
    ensures |StepOf(sys, i)| == |sys| && StepOf(sys, i)[i].held == Perform(sys[i]).held
    ensures forall j | 0 <= j < |sys| && j != i :: StepOf(sys, i)[j].held == sys[j].held
  {
  }

  lemma AcquireHolders(sys: System, i: nat, r: Resource)
    requires i < |sys| && Acquires(sys[i], r)
    ensures Holders(StepOf(sys, i), r) == Holders(sys, r) + {i}
  {
    OthersHold(sys, i);
    AcquiredHolds(sys[i], r);
  }

  lemma OtherHolders(sys: System, i: nat, r: Resource)
    requires i < |sys| && sys[i].rest != [] && !Acquires(sys[i], r)
    ensures Holders(StepOf(sys, i), r) <= Holders(sys, r)
  {
    OthersHold(sys, i);
  }

  lemma HoldersStep(sys: System, i: nat, r: Resource)
    requires i < |sys| && sys[i].rest != []
    ensures Acquires(sys[i], r) ==> Holders(StepOf(sys, i), r) == Holders(sys, r) + {i}
    ensures !Acquires(sys[i], r) ==> Holders(StepOf(sys, i), r) <= Holders(sys, r)
  {
    if Acquires(sys[i], r) {
      AcquireHolders(sys, i, r);
    } else {
      OtherHolders(sys, i, r);
    }
  }

  lemma {:induction false} ExclusiveStep(sys: System, i: nat)
    requires Exclusive(sys) && Inv(sys) && MayStep(sys, i)
    ensures Exclusive(StepOf(sys, i))
  {
    Ascending(sys, i);
    var sys' := StepOf(sys, i);
    forall k: nat
      ensures |Holders(sys', Slot(k))| <= SLOTS
    {
      HoldersStep(sys, i, Slot(k));
      if !Acquires(sys[i], Slot(k)) {
        Subset(Holders(sys', Slot(k)), Holders(sys, Slot(k)));
      }
    }
    forall x, y, r: Resource | 0 <= x < |sys'| && 0 <= y < |sys'| && x != y && !r.Slot? && Held(r, Write) in sys'[x].held
      ensures !Holds(sys'[y], r)
    {
      HoldersStep(sys, i, r);
      assert y in Holders(sys, r) <==> Holds(sys[y], r);
      assert x in Holders(sys, r) <==> Holds(sys[x], r);
    }
  }

  lemma Subset(a: set<nat>, b: set<nat>)
    requires a <= b
    ensures |a| <= |b|
  {
    if a != {} {
      var x :| x in a;
      Subset(a - {x}, b - {x});
    }
  }

  lemma LaunchExclusive(sys: System, i: nat)
    requires Exclusive(sys) && i < |sys|
    ensures Exclusive(sys[i := Start(sys[i], true)])
  {
    var sys' := sys[i := Start(sys[i], true)];
    forall j | 0 <= j < |sys'| ensures sys'[j].held == sys[j].held {}
    forall k: nat ensures |Holders(sys', Slot(k))| <= SLOTS {
      assert Holders(sys', Slot(k)) == Holders(sys, Slot(k));
    }
  }

  lemma FreshExclusive(sys: System)
    requires Fresh(sys)
    ensures Exclusive(sys)
  {
    forall k: nat ensures |Holders(sys, Slot(k))| <= SLOTS {
      assert Holders(sys, Slot(k)) == {};
    }
  }

  lemma NextExclusive(sys: System, sys': System)
    requires Exclusive(sys) && Inv(sys) && Next(sys, sys')
    ensures Exclusive(sys')
  {
    if i :| MayStep(sys, i) && sys' == StepOf(sys, i) {
      ExclusiveStep(sys, i);
    } else {
      var i :| 0 <= i < |sys| && sys' == sys[i := Start(sys[i], true)];
      LaunchExclusive(sys, i);
    }
  }

  lemma {:induction false} PathExclusive(states: seq<System>)
    requires Path(states) && Inv(states[0]) && Fresh(states[0])
    ensures Exclusive(states[|states| - 1])
    decreases |states|
  {
    if |states| == 1 {
      FreshExclusive(states[0]);
    } else {
      var before, sys, sys' := Shorter(states);
      PathExclusive(before);
      PathInv(before);
      NextExclusive(sys, sys');
    }
  }

  /** In every reachable state at most eight threads hold slots of a semaphore, whoever holds a lock for writing is its only
      holder, and no thread holds two start locks. */
  lemma LocksExclude(states: seq<System>, sys: System, i: nat, j: nat, k: nat, l: nat, m: nat, r: Resource)
    requires Path(states) && Inv(states[0]) && Fresh(states[0]) && sys == states[|states| - 1]
    requires i < |sys| && j < |sys|
    ensures |Holders(sys, Slot(k))| <= 8
    ensures !r.Slot? && Held(r, Write) in sys[i].held && (Held(r, Read) in sys[j].held || Held(r, Write) in sys[j].held) ==> i == j
    ensures Holds(sys[i], StartLock(l)) && Holds(sys[i], StartLock(m)) ==> l == m
  {
    PathExclusive(states);
    if Holds(sys[i], StartLock(l)) && Holds(sys[i], StartLock(m)) {
      var a :| 0 <= a < |sys[i].held| && sys[i].held[a].r == StartLock(l);
      var b :| 0 <= b < |sys[i].held| && sys[i].held[b].r == StartLock(m);
    }
    if !r.Slot? && i != j && Held(r, Write) in sys[i].held {
      assert !Holds(sys[j], r);
    }
  }
}
