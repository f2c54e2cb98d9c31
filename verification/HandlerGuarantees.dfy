/** What the locks guarantee while docknap's goroutines work: no more than eight workers at a time, one thread at a container's
    start lock, no data race, and no answer to a bulk request before all of its workers are done. */
module HandlerGuarantees {
  import opened LockOrder
  import opened HandlerPrograms

  // Where a thread is in its program

  /** The thread has performed all of `p` but its rest, and holds what that part leaves in its hands. */
  ghost predicate At(t: Thread, p: seq<Instr>) {
    && |t.rest| <= |p|
    && t.rest == p[|p| - |t.rest|..]
    && After(p[..|p| - |t.rest|], [], {}) == Good(t.held, t.spawned)
  }

  lemma Advance(t: Thread, p: seq<Instr>)
    requires At(t, p) && t.rest != [] && Disciplined(t.rest, t.held, t.spawned)
    ensures At(Perform(t), p)
  {
    var n := |p| - |t.rest|;
    assert p[..n + 1] == p[..n] + [p[n]];
    AfterConcat(p[..n], [p[n]], [], {});
    assert [p[n]][1..] == [];
  }

  ghost predicate AllAt(sys: System, hs: seq<Handler>) {
    |sys| == |hs| && forall i | 0 <= i < |sys| :: At(sys[i], Program(hs[i]))
  }

  lemma AllAtStep(sys: System, i: nat, hs: seq<Handler>)
    requires Inv(sys) && AllAt(sys, hs) && MayStep(sys, i)
    ensures AllAt(StepOf(sys, i), hs)
  {
    forall j | 0 <= j < |sys|
      ensures |StepOf(sys, i)| == |sys| && At(StepOf(sys, i)[j], Program(hs[j]))
    {
      StepThread(sys, i, j);
      assert Disciplined(sys[j].rest, sys[j].held, sys[j].spawned);
      if j == i {
        Advance(sys[i], Program(hs[i]));
      }
    }
  }

  lemma AllAtLaunch(sys: System, i: nat, hs: seq<Handler>)
    requires AllAt(sys, hs) && i < |sys|
    ensures AllAt(sys[i := Start(sys[i], true)], hs)
  {
    assert At(sys[i], Program(hs[i]));
  }

  lemma {:induction false} AllAtRun(hs: seq<Handler>, states: seq<System>)
    requires WellFormed(hs) && Path(states) && states[0] == Process(hs)
    ensures AllAt(states[|states| - 1], hs) && Inv(states[|states| - 1])
    decreases |states|
  {
    ProcessInv(hs);
    PathInv(states);
    if |states| == 1 {
      ProcessAt(hs);
    } else {
      var before, sys, sys' := Shorter(states);
      AllAtRun(hs, before);
      if i :| MayStep(sys, i) && sys' == StepOf(sys, i) {
        AllAtStep(sys, i, hs);
      } else {
        var i :| 0 <= i < |sys| && sys' == sys[i := Start(sys[i], true)];
        AllAtLaunch(sys, i, hs);
      }
    }
  }

  lemma ProcessAt(hs: seq<Handler>)
    ensures AllAt(Process(hs), hs)
  {
    forall i | 0 <= i < |hs| ensures At(Process(hs)[i], Program(hs[i])) {
      assert Program(hs[i])[0..] == Program(hs[i]) && Program(hs[i])[..0] == [];
    }
  }

  // Slots

  /** What a program does not need it leaves alone, from the first instruction to the last. */
  lemma {:induction false} Frame(p: seq<Instr>, below: seq<Held>, held: seq<Held>, spawned: set<nat>)
    requires After(p, below + held, spawned).Good? && After(p, held, spawned).Good?
    ensures After(p, below + held, spawned).held == below + After(p, held, spawned).held
  {
    if p != [] {
      match p[0]
      case Acquire(r, m) =>
        assert below + held + [Held(r, m)] == below + (held + [Held(r, m)]);
        Frame(p[1..], below, held + [Held(r, m)], spawned);
      case Release(r) =>
        assert (below + held)[..|below + held| - 1] == below + held[..|held| - 1];
        Frame(p[1..], below, held[..|held| - 1], spawned);
      case Call(_) => Frame(p[1..], below, held, spawned);
      case Go(ws) => Frame(p[1..], below, held, spawned + ws);
      case Join(_) => Frame(p[1..], below, held, spawned);
    }
  }

  /** Strictly inside the slot the worker holds it. */
  lemma InsideHolds(h: Handler, n: nat, held: seq<Held>, spawned: set<nat>)
    requires Works(h) && 0 < n < |Program(h)| && After(Program(h)[..n], [], {}) == Good(held, spawned)
    ensures Held(Slot(h.slots), Write) in held
  {
    var slot, body := Held(Slot(h.slots), Write), InSlot(h);
    WorkerProgram(h);
    var front := body[..n - 1];
    assert Program(h)[..n] == [Acquire(Slot(h.slots), Write)] + front;
    AfterConcat([Acquire(Slot(h.slots), Write)], front, [], {});
    assert [Acquire(Slot(h.slots), Write)][1..] == [] && [] + [slot] == [slot] + [] == [slot];
    assert After([Acquire(Slot(h.slots), Write)], [], {}) == Good([slot], {});
    InSlotNeutral(h, {});
    assert Ready([], 1, {}) && body == front + body[n - 1..];
    AfterConcat(front, body[n - 1..], [], {});
    Frame(front, [slot], [], {});
    assert held[0] == slot;
  }

  lemma WorkerProgram(h: Handler)
    requires Works(h)
    ensures Program(h) == [Acquire(Slot(h.slots), Write)] + InSlot(h) + [Release(Slot(h.slots))]
  {
    var p := Under(Slot(h.slots), InSlot(h));
    assert Pieces(h) == [p] && [p][..0] == [];
    assert Flat([p]) == Flat([]) + p == p;
  }

  /** The worker has begun and not ended. */
  predicate Busy(t: Thread, h: Handler) {
    Works(h) && t.rest != Program(h) && t.rest != []
  }

  ghost function BusyWith(sys: System, hs: seq<Handler>, k: nat): set<nat>
    requires |sys| == |hs|
  {
    set i | 0 <= i < |sys| && Busy(sys[i], hs[i]) && hs[i].slots == k
  }

  /** In every reachable state a busy worker of a bulk request holds a slot of its semaphore, so at most eight of them are
      busy at the same time, however many services there are. */
  lemma EightAtATime(hs: seq<Handler>, states: seq<System>, sys: System, k: nat)
    requires WellFormed(hs) && Path(states) && states[0] == Process(hs) && sys == states[|states| - 1]
    ensures |sys| == |hs| && forall i | 0 <= i < |sys| && Busy(sys[i], hs[i]) :: Held(Slot(hs[i].slots), Write) in sys[i].held
    ensures |BusyWith(sys, hs, k)| <= 8
  {
    AllAtRun(hs, states);
    forall i | 0 <= i < |sys| && Busy(sys[i], hs[i])
      ensures Held(Slot(hs[i].slots), Write) in sys[i].held
    {
      var p := Program(hs[i]);
      assert p[0..] == p;
      InsideHolds(hs[i], |p| - |sys[i].rest|, sys[i].held, sys[i].spawned);
    }
    ProcessInv(hs);
    PathExclusive(states);
    assert BusyWith(sys, hs, k) <= Holders(sys, Slot(k));
    Subset(BusyWith(sys, hs, k), Holders(sys, Slot(k)));
  }

  // Start locks and races

  predicate AtWork(t: Thread, w: Work) {
    t.rest != [] && t.rest[0] == Call(w)
  }

  /** In every reachable state a thread that probes, inspects or starts a container on behalf of lock object `l` holds that
      lock object, and no other thread does. */
  lemma DockerUnderLock(hs: seq<Handler>, states: seq<System>, sys: System, i: nat, j: nat, l: nat, task: Task)
    requires WellFormed(hs) && Path(states) && states[0] == Process(hs) && sys == states[|states| - 1]
    requires i < |sys| && AtWork(sys[i], Locked(l, task)) && j < |sys| && j != i
    ensures Held(StartLock(l), Write) in sys[i].held && !Holds(sys[j], StartLock(l))
  {
    ProcessInv(hs);
    PathInv(states);
    PathExclusive(states);
    assert Disciplined(sys[i].rest, sys[i].held, sys[i].spawned);
  }

  /** No data race: in every reachable state, while one thread is about to write what a mutex protects no other thread is
      about to read or write it. */
  lemma NoDataRace(hs: seq<Handler>, states: seq<System>, sys: System, i: nat, j: nat, r: Resource)
    requires WellFormed(hs) && Path(states) && states[0] == Process(hs) && sys == states[|states| - 1]
    requires i < |sys| && j < |sys| && i != j && !r.Slot? && AtWork(sys[i], Change(r))
    ensures !AtWork(sys[j], Change(r)) && !AtWork(sys[j], Look(r))
  {
    ProcessInv(hs);
    PathInv(states);
    PathExclusive(states);
    assert Disciplined(sys[i].rest, sys[i].held, sys[i].spawned);
    assert Disciplined(sys[j].rest, sys[j].held, sys[j].spawned);
    assert !Holds(sys[j], r);
  }

  // Bulk requests

  /** The thread has run to its end. */
  predicate Ended(sys: System, w: nat) {
    w < |sys| && sys[w].started && sys[w].rest == []
  }

  predicate AllEnded(sys: System, ws: set<nat>) {
    forall w | w in ws :: Ended(sys, w)
  }

  /** Whoever is past the wait of a bulk request has seen all of its workers end. */
  ghost predicate Awaited(sys: System, hs: seq<Handler>) {
    |sys| == |hs| && forall i | 0 <= i < |sys| && Awaits(hs[i]) && |sys[i].rest| <= 1 :: AllEnded(sys, hs[i].workers)
  }

  lemma EndedStays(sys: System, i: nat, w: nat)
    requires i < |sys| && sys[i].rest != [] && Ended(sys, w)
    ensures Ended(StepOf(sys, i), w)
  {
    StepThread(sys, i, w);
  }

  lemma AwaitedStep(sys: System, i: nat, hs: seq<Handler>)
    requires AllAt(sys, hs) && Awaited(sys, hs) && MayStep(sys, i)
    ensures Awaited(StepOf(sys, i), hs)
  {
    var sys' := StepOf(sys, i);
    forall w | Ended(sys, w) ensures Ended(sys', w) { EndedStays(sys, i, w); }
    forall j | 0 <= j < |sys| && Awaits(hs[j])
      ensures |sys'| == |sys| && (|sys'[j].rest| <= 1 ==> AllEnded(sys', hs[j].workers))
    {
      StepThread(sys, i, j);
      BulkProgram(hs[j]);
      assert At(sys[j], Program(hs[j]));
      if |sys[j].rest| == 2 && j == i {
        assert sys[j].rest[0] == Join(hs[j].workers);
        assert AllEnded(sys, hs[j].workers);
      }
    }
  }

  lemma AwaitedLaunch(sys: System, i: nat, hs: seq<Handler>)
    requires Awaited(sys, hs) && i < |sys|
    ensures Awaited(sys[i := Start(sys[i], true)], hs)
  {
    var sys' := sys[i := Start(sys[i], true)];
    forall w | Ended(sys, w) ensures Ended(sys', w) {}
    forall j | 0 <= j < |sys| && Awaits(hs[j]) && |sys'[j].rest| <= 1
      ensures AllEnded(sys', hs[j].workers)
    {
      assert sys'[j].rest == sys[j].rest && AllEnded(sys, hs[j].workers);
    }
  }

  lemma {:induction false} AwaitedRun(hs: seq<Handler>, states: seq<System>)
    requires WellFormed(hs) && Path(states) && states[0] == Process(hs)
    ensures Awaited(states[|states| - 1], hs)
    decreases |states|
  {
    if |states| == 1 {
      forall i | 0 <= i < |hs| && Awaits(hs[i]) ensures |Process(hs)[i].rest| > 1 { BulkProgram(hs[i]); }
    } else {
      var before, sys, sys' := Shorter(states);
      AllAtRun(hs, before);
      AwaitedRun(hs, before);
      if i :| MayStep(sys, i) && sys' == StepOf(sys, i) {
        AwaitedStep(sys, i, hs);
      } else {
        var i :| 0 <= i < |sys| && sys' == sys[i := Start(sys[i], true)];
        AwaitedLaunch(sys, i, hs);
      }
    }
  }

  /** A bulk request is answered only when every one of its workers has ended: in every reachable state in which it is about
      to answer, or has. */
  lemma {:induction false} BulkWaits(hs: seq<Handler>, states: seq<System>, sys: System, i: nat)
    requires WellFormed(hs) && Path(states) && states[0] == Process(hs) && sys == states[|states| - 1]
    requires i < |sys| && i < |hs|
    requires (hs[i].HandleWakeAll? || hs[i].HandleStopAll?) && (sys[i].rest == [Call(Other)] || sys[i].rest == [])
    ensures AllEnded(sys, hs[i].workers)
  {
    AwaitedRun(hs, states);
  }
}
