/** What docknap's goroutines lock, in which order, on every control path.

    A program lists the acquisitions, releases, spawns and waits of one path through a handler; `Call` stands for
    anything that holds on to no lock of ours, such as a Docker call or a notification. The parameters say which
    branches were taken and which lock objects acquireStartLock returned. */
module HandlerPrograms {
  import opened LockOrder

  datatype StartPath = InspectFailed | AlreadyRunning | StartFailed | StartedBy(waiter: nat)

  datatype StopPath = StopFailed | StoppedOk | PausedOk

  datatype Handler =
    | HandleProxy(known: bool, probe: nat, open: bool, disabled: bool, start: nat, path: StartPath)
    | HandleWake(known: bool, start: nat, path: StartPath)
    | HandleStop(known: bool, stop: StopPath)
    | HandleWait(known: bool, open: bool, start: nat, path: StartPath, timedOut: bool)
    | HandleWakeAll(workers: set<nat>)
    | HandleStopAll(workers: set<nat>)
    | WakeWorker(slots: nat, probe: nat, open: bool, start: nat, path: StartPath)
    | StopWorker(slots: nat, running: bool, stop: StopPath, counter: nat)
    | WaitForReady(probes: nat, cancelled: bool)
    | TimerCallback(stop: StopPath)
    | SyncContainers(listed: bool, calls: nat, arms: nat)
    | ServeMetrics(gauges: nat)
    | ServeHistory(known: bool)
    | StopAllIdleTimers
    | HandleStatus(inspections: nat)
    | HandleConfig
    | ServeServiceMetrics(known: bool)
    | HandleLogs(known: bool, tail: nat, lines: nat)
    | LogTail(started: bool, lines: nat)
    | StopLogTails
    | Authenticate(session: bool, failed: bool)
    | ProcessLogin(limited: bool, complete: bool, valid: bool)
    | HandleLogout(session: bool)
    | CollectSessions(rounds: nat)

  /** The mutexes of the log tails, of their viewers, of the sessions and of the login attempts. */
  const TAILS := Leaf(0)
  const VIEWERS := Leaf(1)
  const SESSIONS := Leaf(2)
  const ATTEMPTS := Leaf(3)

  /** A critical section that writes what the lock protects. */
  function Section(r: Resource): seq<Instr> { [Acquire(r, Write)] + [Call(Change(r))] + [Release(r)] }

  /** A critical section that only reads it. */
  function ReadSection(r: Resource): seq<Instr> { [Acquire(r, Read)] + [Call(Look(r))] + [Release(r)] }

  function Under(r: Resource, p: seq<Instr>): seq<Instr> { [Acquire(r, Write)] + p + [Release(r)] }

  function Repeat(n: nat, p: seq<Instr>): seq<Instr> {
    if n == 0 then [] else p + Repeat(n - 1, p)
  }

  function If(c: bool, p: seq<Instr>): seq<Instr> {
    if c then p else []
  }

  /** A list of pieces, one after the other. */
  function Flat(ps: seq<seq<Instr>>): seq<Instr> {
    if ps == [] then [] else Flat(ps[..|ps| - 1]) + ps[|ps| - 1]
  }

  /** A probe under a start lock: first the table lookup, then the lock itself. */
  function ProbeUnderLock(l: nat): seq<Instr> {
    Flat([Section(Shared), Under(StartLock(l), [Call(Locked(l, Probing))])])
  }

  /** Inspect; if the container needs a start, count it, record the event and notify, mark the boot, call Docker; then
      either record the failure or spawn the waiter. */
  function StartBody(l: nat, path: StartPath): seq<Instr> {
    match path
    case InspectFailed => [Call(Locked(l, Inspecting))]
    case AlreadyRunning => [Call(Locked(l, Inspecting))]
    case StartFailed =>
      Flat([[Call(Locked(l, Inspecting))], Section(Registry), Section(Shared), [Call(Free(Notifying))], Section(Shared),
            [Call(Locked(l, Starting))], Section(Shared), Section(Shared), [Call(Free(Notifying))]])
    case StartedBy(w) =>
      Flat([[Call(Locked(l, Inspecting))], Section(Registry), Section(Shared), [Call(Free(Notifying))], Section(Shared),
            [Call(Locked(l, Starting))], [Go({w})]])
  }

  function StartContainer(l: nat, path: StartPath): seq<Instr> {
    Flat([Section(Shared), Under(StartLock(l), StartBody(l, path))])
  }

  /** Take the timer away, call Docker, record the outcome and notify, count. */
  function StopContainer(path: StopPath): seq<Instr> {
    match path
    case StopFailed => Flat([Section(Shared), [Call(Free(Stopping))], Section(Shared), [Call(Free(Notifying))]])
    case StoppedOk =>
      Flat([Section(Shared), [Call(Free(Stopping))], Section(Shared), Section(Shared), [Call(Free(Notifying))],
            Section(Registry)])
    case PausedOk =>
      Flat([Section(Shared), [Call(Free(Stopping))], Section(Shared), [Call(Free(Notifying))], Section(Registry)])
  }

  function CountFailure(path: StartPath): seq<Instr> {
    If(path.InspectFailed? || path.StartFailed?, Section(Registry))
  }

  /** What a wake-all worker does in its slot. */
  function Waking(probe: nat, open: bool, start: nat, path: StartPath): seq<seq<Instr>> {
    [ProbeUnderLock(probe), If(!open, StartContainer(start, path))]
  }

  /** What a stop-all worker does in its slot. */
  function StoppingOne(running: bool, stop: StopPath, counter: nat): seq<seq<Instr>> {
    [[Call(Free(Inspecting))], If(running, StopContainer(stop)), If(running, Section(StopCount(counter)))]
  }

  function Pieces(h: Handler): seq<seq<Instr>> {
    match h
    case HandleProxy(known, probe, open, disabled, start, path) =>
      if !known then [ReadSection(Shared)]
      else if open then
        [ReadSection(Shared), ProbeUnderLock(probe), If(!disabled, Section(Shared)), [Call(Other)], Section(Registry),
         Section(Registry)]
      else
        [ReadSection(Shared), ProbeUnderLock(probe), StartContainer(start, path), CountFailure(path), [Call(Other)],
         Section(Registry), Section(Registry)]
    case HandleWake(known, start, path) => [ReadSection(Shared), If(known, StartContainer(start, path))]
    case HandleStop(known, stop) => [ReadSection(Shared), If(known, StopContainer(stop))]
    case HandleWait(known, open, start, path, timedOut) =>
      if !known then [ReadSection(Shared)]
      else if open then
        [ReadSection(Shared), [Call(Free(Probing))], ReadSection(Shared), Section(Shared), Section(Shared), [Call(Other)]]
      else
        [ReadSection(Shared), [Call(Free(Probing))], Section(Shared), StartContainer(start, path), CountFailure(path),
         ReadSection(Shared), If(timedOut, Section(Registry)), If(timedOut, Section(Shared)), [Call(Other)]]
    case HandleWakeAll(workers) => [ReadSection(Shared), [Go(workers)], [Join(workers)], [Call(Other)]]
    case HandleStopAll(workers) => [ReadSection(Shared), [Go(workers)], [Join(workers)], [Call(Other)]]
    case WakeWorker(slots, probe, open, start, path) => [Under(Slot(slots), Flat(Waking(probe, open, start, path)))]
    case StopWorker(slots, running, stop, counter) => [Under(Slot(slots), Flat(StoppingOne(running, stop, counter)))]
    case WaitForReady(probes, cancelled) =>
      if cancelled then [Repeat(probes, [Call(Free(Probing))])]
      else
        [Repeat(probes, [Call(Free(Probing))]), Section(Registry), Section(Shared), Section(Shared),
         [Call(Free(Notifying))], Section(Shared), [Call(Other)]]
    case TimerCallback(stop) => [Section(Registry), Section(Shared), [Call(Free(Notifying))], StopContainer(stop)]
    case SyncContainers(listed, calls, arms) =>
      if !listed then [[Call(Other)]]
      else
        [[Call(Other)], ReadSection(Shared), Under(Shared, Repeat(calls, [Call(Change(Shared)), Call(Other)])),
         Repeat(arms, Section(Shared)), Section(Registry)]
    case ServeMetrics(gauges) => [ReadSection(Shared), Repeat(gauges, Section(Registry)), ReadSection(Registry)]
    case ServeHistory(known) =>
      if known then [ReadSection(Shared), [Call(Free(Inspecting))], ReadSection(Shared), ReadSection(Registry)]
      else [ReadSection(Shared)]
    case StopAllIdleTimers => [Section(Shared), [Call(Other)]]
    case HandleStatus(inspections) => [ReadSection(Shared), Repeat(inspections, [Call(Free(Inspecting))])]
    case HandleConfig => [ReadSection(Shared), [Call(Other)]]
    case ServeServiceMetrics(known) => [ReadSection(Shared), If(known, ReadSection(Registry))]
    case HandleLogs(known, tail, lines) =>
      if !known then [ReadSection(Shared)]
      else
        [ReadSection(Shared), [Call(Other)], Section(VIEWERS), Section(TAILS), [Go({tail})], Repeat(lines, [Call(Other)]),
         Section(TAILS), Section(VIEWERS)]
    case LogTail(started, lines) => [[Call(Other)], If(started, Repeat(lines, Section(VIEWERS)))]
    case StopLogTails => [Section(TAILS)]
    case Authenticate(session, failed) => [If(session, Section(SESSIONS)), If(failed, Section(Registry)), [Call(Other)]]
    case ProcessLogin(limited, complete, valid) =>
      [Section(ATTEMPTS), If(limited || (complete && !valid), Section(Registry)),
       If(!limited && complete && valid, Section(SESSIONS)), [Call(Other)]]
    case HandleLogout(session) => [If(session, Section(SESSIONS)), [Call(Other)]]
    case CollectSessions(rounds) => [Repeat(rounds, Section(SESSIONS))]
  }

  /** The handlers that touch a mutex of their own, and those that only read. */
  predicate Aside(h: Handler) {
    || h.HandleStatus? || h.HandleConfig? || h.ServeServiceMetrics? || h.HandleLogs? || h.LogTail? || h.StopLogTails?
    || h.Authenticate? || h.ProcessLogin? || h.HandleLogout? || h.CollectSessions?
  }

  function Program(h: Handler): seq<Instr> {
    Flat(Pieces(h))
  }

  // ---- every path keeps the discipline ----

  lemma {:induction false} FlatFirst(p: seq<Instr>, ps: seq<seq<Instr>>)
    ensures Flat([p] + ps) == p + Flat(ps)
  {
    if ps == [] {
      assert [p] + ps == [p] && [p][..0] == [];
    } else {
      var n := |ps| - 1;
      FlatFirst(p, ps[..n]);
      assert ([p] + ps)[..n + 1] == [p] + ps[..n];
    }
  }

  lemma {:induction false} AfterConcat(p: seq<Instr>, q: seq<Instr>, held: seq<Held>, spawned: set<nat>)
    ensures After(p + q, held, spawned) ==
            match After(p, held, spawned) case Bad => Bad case Good(h, w) => After(q, h, w)
  {
    if p == [] {
      assert p + q == q;
    } else {
      assert (p + q)[0] == p[0] && (p + q)[1..] == p[1..] + q;
      match p[0]
      case Acquire(r, m) => AfterConcat(p[1..], q, held + [Held(r, m)], spawned);
      case Release(r) => if held != [] { AfterConcat(p[1..], q, held[..|held| - 1], spawned); }
      case Call(w) => if Guarded(w, held) { AfterConcat(p[1..], q, held, spawned); }
      case Go(ws) => AfterConcat(p[1..], q, held, spawned + ws);
      case Join(ws) => AfterConcat(p[1..], q, held, spawned);
    }
  }

  /** Hands that hold only ranks below `bottom`, and all of `guards`. */
  predicate Ready(held: seq<Held>, bottom: nat, guards: set<Held>) {
    (forall h | h in held :: Rank(h.r) < bottom) && forall g | g in guards :: g in held
  }

  /** `p` gives back whatever it takes, starting from hands that hold only ranks below `bottom`, and all of `guards`. */
  ghost predicate Neutral(p: seq<Instr>, bottom: nat, guards: set<Held>) {
    forall held: seq<Held>, spawned: set<nat> {:trigger After(p, held, spawned)} ::
      Ready(held, bottom, guards) ==> After(p, held, spawned).Good? && After(p, held, spawned).held == held
  }

  lemma Sequence(p: seq<Instr>, q: seq<Instr>, bottom: nat, guards: set<Held>)
    requires Neutral(p, bottom, guards) && Neutral(q, bottom, guards)
    ensures Neutral(p + q, bottom, guards)
  {
    forall held: seq<Held>, spawned: set<nat> | Ready(held, bottom, guards)
      ensures After(p + q, held, spawned).Good? && After(p + q, held, spawned).held == held
    {
      AfterConcat(p, q, held, spawned);
    }
  }

  lemma Around(r: Resource, m: Mode, p: seq<Instr>, bottom: nat, guards: set<Held>)
    requires bottom <= Rank(r) && Neutral(p, Rank(r) + 1, guards + {Held(r, m)})
    ensures Neutral([Acquire(r, m)] + p + [Release(r)], bottom, guards)
  {
    forall held: seq<Held>, spawned: set<nat> | Ready(held, bottom, guards)
      ensures var all := [Acquire(r, m)] + p + [Release(r)];
              After(all, held, spawned).Good? && After(all, held, spawned).held == held
    {
      var inside := held + [Held(r, m)];
      var all := [Acquire(r, m)] + p + [Release(r)];
      assert all[0] == Acquire(r, m) && all[1..] == p + [Release(r)];
      AfterConcat(p, [Release(r)], inside, spawned);
      assert inside[|held|] == Held(r, m) && Ready(inside, Rank(r) + 1, guards + {Held(r, m)});
      assert inside[..|inside| - 1] == held;
      assert After([Release(r)], inside, After(p, inside, spawned).spawned) == Good(held, After(p, inside, spawned).spawned);
    }
  }

  lemma Basics(bottom: nat, ws: set<nat>, guards: set<Held>)
    ensures Neutral([], bottom, guards) && Neutral([Go(ws)], bottom, guards)
  {
  }

  /** The lock that the work needs is among `guards`. */
  predicate Covered(w: Work, guards: set<Held>) {
    match w
    case Look(r) => Held(r, Read) in guards || Held(r, Write) in guards
    case Change(r) => Held(r, Write) in guards
    case Locked(l, _) => Held(StartLock(l), Write) in guards
    case _ => true
  }

  /** Work whose lock is held. */
  lemma Working(w: Work, bottom: nat, guards: set<Held>)
    requires Covered(w, guards)
    ensures Neutral([Call(w)], bottom, guards)
  {
    forall held: seq<Held>, spawned: set<nat> | Ready(held, bottom, guards)
      ensures After([Call(w)], held, spawned) == Good(held, spawned)
    {
      assert Guarded(w, held);
      assert [Call(w)][1..] == [];
    }
  }

  lemma Calls(bottom: nat, guards: set<Held>)
    ensures Neutral([Call(Other)], bottom, guards)
    ensures forall task :: Neutral([Call(Free(task))], bottom, guards)
  {
    Working(Other, bottom, guards);
    forall task ensures Neutral([Call(Free(task))], bottom, guards) { Working(Free(task), bottom, guards); }
  }

  lemma Sections(r: Resource, bottom: nat, guards: set<Held>)
    requires bottom <= Rank(r)
    ensures Neutral(Section(r), bottom, guards) && Neutral(ReadSection(r), bottom, guards)
  {
    Working(Change(r), Rank(r) + 1, guards + {Held(r, Write)});
    Working(Look(r), Rank(r) + 1, guards + {Held(r, Read)});
    Around(r, Write, [Call(Change(r))], bottom, guards);
    Around(r, Read, [Call(Look(r))], bottom, guards);
  }

  lemma {:induction false} Repeats(n: nat, p: seq<Instr>, bottom: nat, guards: set<Held>)
    requires Neutral(p, bottom, guards)
    ensures Neutral(Repeat(n, p), bottom, guards)
  {
    if n == 0 {
      Basics(bottom, {}, guards);
    } else {
      Repeats(n - 1, p, bottom, guards);
      Sequence(p, Repeat(n - 1, p), bottom, guards);
    }
  }

  lemma {:induction false} FlatNeutral(ps: seq<seq<Instr>>, bottom: nat, guards: set<Held>)
    requires forall p | p in ps :: Neutral(p, bottom, guards)
    ensures Neutral(Flat(ps), bottom, guards)
  {
    if ps == [] {
      Basics(bottom, {}, guards);
    } else {
      FlatNeutral(ps[..|ps| - 1], bottom, guards);
      Sequence(Flat(ps[..|ps| - 1]), ps[|ps| - 1], bottom, guards);
    }
  }

  lemma IfNeutral(c: bool, p: seq<Instr>, bottom: nat, guards: set<Held>)
    requires Neutral(p, bottom, guards)
    ensures Neutral(If(c, p), bottom, guards)
  {
    Basics(bottom, {}, guards);
  }

  lemma Weaken(p: seq<Instr>, bottom: nat, guards: set<Held>)
    requires Neutral(p, 1, {}) && bottom <= 1
    ensures Neutral(p, bottom, guards)
  {
    forall held: seq<Held>, spawned: set<nat> | Ready(held, bottom, guards)
      ensures After(p, held, spawned).Good? && After(p, held, spawned).held == held
    {
      assert Ready(held, 1, {});
    }
  }

  lemma ProbeNeutral(l: nat)
    ensures Neutral(ProbeUnderLock(l), 1, {})
  {
    Sections(Shared, 1, {});
    Working(Locked(l, Probing), 2, {} + {Held(StartLock(l), Write)});
    Around(StartLock(l), Write, [Call(Locked(l, Probing))], 1, {});
    FlatNeutral([Section(Shared), Under(StartLock(l), [Call(Locked(l, Probing))])], 1, {});
  }

  lemma StartNeutral(l: nat, path: StartPath)
    ensures Neutral(StartContainer(l, path), 1, {})
  {
    var guards := {} + {Held(StartLock(l), Write)};
    Basics(2, if path.StartedBy? then {path.waiter} else {}, guards);
    Calls(2, guards);
    Working(Locked(l, Inspecting), 2, guards);
    Working(Locked(l, Starting), 2, guards);
    Sections(Shared, 2, guards);
    Sections(Registry, 2, guards);
    match path {
      case StartFailed =>
        FlatNeutral([[Call(Locked(l, Inspecting))], Section(Registry), Section(Shared), [Call(Free(Notifying))],
                 Section(Shared), [Call(Locked(l, Starting))], Section(Shared), Section(Shared), [Call(Free(Notifying))]],
                2, guards);
      case StartedBy(w) =>
        FlatNeutral([[Call(Locked(l, Inspecting))], Section(Registry), Section(Shared), [Call(Free(Notifying))],
                 Section(Shared), [Call(Locked(l, Starting))], [Go({w})]], 2, guards);
      case _ =>
    }
    Sections(Shared, 1, {});
    Around(StartLock(l), Write, StartBody(l, path), 1, {});
    FlatNeutral([Section(Shared), Under(StartLock(l), StartBody(l, path))], 1, {});
  }

  lemma StopNeutral(path: StopPath)
    ensures Neutral(StopContainer(path), 1, {})
  {
    Calls(1, {});
    Sections(Shared, 1, {});
    Sections(Registry, 1, {});
    match path
    case StopFailed =>
      FlatNeutral([Section(Shared), [Call(Free(Stopping))], Section(Shared), [Call(Free(Notifying))]], 1, {});
    case StoppedOk =>
      FlatNeutral([Section(Shared), [Call(Free(Stopping))], Section(Shared), Section(Shared), [Call(Free(Notifying))],
               Section(Registry)], 1, {});
    case PausedOk =>
      FlatNeutral([Section(Shared), [Call(Free(Stopping))], Section(Shared), [Call(Free(Notifying))], Section(Registry)], 1, {});
  }

  predicate Awaits(h: Handler) {
    h.HandleWakeAll? || h.HandleStopAll?
  }

  predicate Works(h: Handler) {
    h.WakeWorker? || h.StopWorker?
  }

  /** What a worker does in its slot. */
  function InSlot(h: Handler): seq<Instr>
    requires Works(h)
  {
    match h
    case WakeWorker(_, probe, open, start, path) => Flat(Waking(probe, open, start, path))
    case StopWorker(_, running, stop, counter) => Flat(StoppingOne(running, stop, counter))
  }

  lemma InSlotNeutral(h: Handler, guards: set<Held>)
    requires Works(h)
    ensures Neutral(InSlot(h), 1, guards)
  {
    match h {
      case WakeWorker(_, probe, open, start, path) =>
        ProbeNeutral(probe);
        StartNeutral(start, path);
        IfNeutral(!open, StartContainer(start, path), 1, {});
        FlatNeutral(Waking(probe, open, start, path), 1, {});
      case StopWorker(_, running, stop, counter) =>
        Calls(1, {});
        StopNeutral(stop);
        Sections(StopCount(counter), 1, {});
        IfNeutral(running, StopContainer(stop), 1, {});
        IfNeutral(running, Section(StopCount(counter)), 1, {});
        FlatNeutral(StoppingOne(running, stop, counter), 1, {});
    }
    Weaken(InSlot(h), 1, guards);
  }

  lemma WorkerNeutral(h: Handler)
    requires Works(h)
    ensures forall p | p in Pieces(h) :: Neutral(p, 0, {})
  {
    InSlotNeutral(h, {} + {Held(Slot(h.slots), Write)});
    Around(Slot(h.slots), Write, InSlot(h), 0, {});
  }

  lemma RequestNeutral(h: Handler)
    requires h.HandleProxy? || h.HandleWake? || h.HandleStop? || h.HandleWait?
    ensures forall p | p in Pieces(h) :: Neutral(p, 0, {})
  {
    Calls(0, {});
    Sections(Shared, 0, {});
    Sections(Registry, 0, {});
    match h
    case HandleProxy(known, probe, open, disabled, start, path) =>
      ProbeNeutral(probe);
      StartNeutral(start, path);
      Weaken(ProbeUnderLock(probe), 0, {});
      Weaken(StartContainer(start, path), 0, {});
      IfNeutral(!disabled, Section(Shared), 0, {});
      IfNeutral(path.InspectFailed? || path.StartFailed?, Section(Registry), 0, {});
    case HandleWake(known, start, path) =>
      StartNeutral(start, path);
      Weaken(StartContainer(start, path), 0, {});
      IfNeutral(known, StartContainer(start, path), 0, {});
    case HandleStop(known, stop) =>
      StopNeutral(stop);
      Weaken(StopContainer(stop), 0, {});
      IfNeutral(known, StopContainer(stop), 0, {});
    case HandleWait(known, open, start, path, timedOut) =>
      StartNeutral(start, path);
      Weaken(StartContainer(start, path), 0, {});
      IfNeutral(path.InspectFailed? || path.StartFailed?, Section(Registry), 0, {});
      IfNeutral(timedOut, Section(Registry), 0, {});
      IfNeutral(timedOut, Section(Shared), 0, {});
  }

  lemma LogsNeutral(h: Handler)
    requires h.HandleLogs? || h.LogTail? || h.StopLogTails?
    ensures forall p | p in Pieces(h) :: Neutral(p, 0, {})
  {
    Calls(0, {});
    Sections(Shared, 0, {});
    Sections(TAILS, 0, {});
    Sections(VIEWERS, 0, {});
    match h
    case HandleLogs(_, tail, lines) =>
      Basics(0, {tail}, {});
      Repeats(lines, [Call(Other)], 0, {});
    case LogTail(started, lines) =>
      Repeats(lines, Section(VIEWERS), 0, {});
      IfNeutral(started, Repeat(lines, Section(VIEWERS)), 0, {});
    case StopLogTails =>
  }

  lemma LoginNeutral(h: Handler)
    requires h.Authenticate? || h.ProcessLogin? || h.HandleLogout? || h.CollectSessions?
    ensures forall p | p in Pieces(h) :: Neutral(p, 0, {})
  {
    Calls(0, {});
    Sections(Registry, 0, {});
    Sections(SESSIONS, 0, {});
    Sections(ATTEMPTS, 0, {});
    match h
    case Authenticate(session, failed) =>
      IfNeutral(session, Section(SESSIONS), 0, {});
      IfNeutral(failed, Section(Registry), 0, {});
    case ProcessLogin(limited, complete, valid) =>
      IfNeutral(limited || (complete && !valid), Section(Registry), 0, {});
      IfNeutral(!limited && complete && valid, Section(SESSIONS), 0, {});
    case HandleLogout(session) => IfNeutral(session, Section(SESSIONS), 0, {});
    case CollectSessions(rounds) => Repeats(rounds, Section(SESSIONS), 0, {});
  }

  lemma AsideNeutral(h: Handler)
    requires Aside(h)
    ensures forall p | p in Pieces(h) :: Neutral(p, 0, {})
  {
    Calls(0, {});
    Sections(Shared, 0, {});
    match h
    case HandleStatus(inspections) => Repeats(inspections, [Call(Free(Inspecting))], 0, {});
    case HandleConfig =>
    case ServeServiceMetrics(known) =>
      Sections(Registry, 0, {});
      IfNeutral(known, ReadSection(Registry), 0, {});
    case Authenticate(_, _) => LoginNeutral(h);
    case ProcessLogin(_, _, _) => LoginNeutral(h);
    case HandleLogout(_) => LoginNeutral(h);
    case CollectSessions(_) => LoginNeutral(h);
    case _ => LogsNeutral(h);
  }

  /** A round of the merge: the registry is changed, Docker inspects a container and a webhook is queued, all under the mutex. */
  lemma MergingNeutral(calls: nat)
    ensures Neutral(Under(Shared, Repeat(calls, [Call(Change(Shared)), Call(Other)])), 0, {})
  {
    var guards := {} + {Held(Shared, Write)};
    Calls(3, guards);
    Working(Change(Shared), 3, guards);
    Sequence([Call(Change(Shared))], [Call(Other)], 3, guards);
    assert [Call(Change(Shared))] + [Call(Other)] == [Call(Change(Shared)), Call(Other)];
    Repeats(calls, [Call(Change(Shared)), Call(Other)], 3, guards);
    Around(Shared, Write, Repeat(calls, [Call(Change(Shared)), Call(Other)]), 0, {});
  }

  lemma PiecesNeutral(h: Handler)
    requires !Awaits(h)
    ensures forall p | p in Pieces(h) :: Neutral(p, 0, {})
  {
    Calls(0, {});
    Sections(Shared, 0, {});
    Sections(Registry, 0, {});
    match h
    case WaitForReady(probes, _) => Repeats(probes, [Call(Free(Probing))], 0, {});
    case TimerCallback(stop) =>
      StopNeutral(stop);
      Weaken(StopContainer(stop), 0, {});
    case SyncContainers(_, calls, arms) =>
      MergingNeutral(calls);
      Repeats(arms, Section(Shared), 0, {});
    case ServeMetrics(gauges) => Repeats(gauges, Section(Registry), 0, {});
    case ServeHistory(_) =>
    case StopAllIdleTimers =>
    case WakeWorker(_, _, _, _, _) => WorkerNeutral(h);
    case StopWorker(_, _, _, _) => WorkerNeutral(h);
    case _ => if Aside(h) { AsideNeutral(h); } else { RequestNeutral(h); }
  }

  /** The program of a bulk handler, spelled out. */
  function Bulk(ws: set<nat>): seq<Instr> {
    [Acquire(Shared, Read), Call(Look(Shared)), Release(Shared), Go(ws), Join(ws), Call(Other)]
  }

  lemma BulkProgram(h: Handler)
    requires Awaits(h)
    ensures Program(h) == Bulk(h.workers)
  {
    var read, go, join, answer := ReadSection(Shared), [Go(h.workers)], [Join(h.workers)], [Call(Other)];
    FlatFirst(answer, []);
    FlatFirst(join, [answer]);
    FlatFirst(go, [join] + [answer]);
    FlatFirst(read, [go] + ([join] + [answer]));
    assert [answer] + [] == [answer];
    assert Pieces(h) == [read] + ([go] + ([join] + [answer]));
  }

  /** After the wait nothing that was spawned is left to wait for. */
  lemma BulkDisciplined(ws: set<nat>)
    ensures Disciplined(Bulk(ws), [], {})
  {
    var tail := [Go(ws), Join(ws), Call(Other)];
    var rest := tail[1..];
    assert rest == [Join(ws), Call(Other)] && rest[1..] == [Call(Other)] && [Call(Other)][1..] == [];
    assert {} + ws == ws;
    assert After([Call(Other)], [], ws) == Good([], ws);
    assert After(rest, [], ws) == After([Call(Other)], [], ws);
    assert After(tail, [], {}) == After(rest, [], ws);
    Sections(Shared, 0, {});
    assert Ready([], 0, {});
    AfterConcat(ReadSection(Shared), tail, [], {});
    NothingSpawned();
    assert Bulk(ws) == ReadSection(Shared) + tail;
  }

  lemma NothingSpawned()
    ensures After(ReadSection(Shared), [], {}) == Good([], {})
  {
    var p := ReadSection(Shared);
    var held := [Held(Shared, Read)];
    assert p[1..] == [Call(Look(Shared)), Release(Shared)] && p[1..][1..] == [Release(Shared)] && p[1..][1..][1..] == [];
    assert [] + held == held && held[..0] == [] && held[0] in held;
    assert After([Release(Shared)], held, {}) == Good([], {});
    assert After(p[1..], held, {}) == After([Release(Shared)], held, {});
  }

  /** Every control path of every handler keeps the lock discipline. */
  lemma HandlersDisciplined(h: Handler)
    ensures Disciplined(Program(h), [], {})
  {
    if Awaits(h) {
      BulkProgram(h);
      BulkDisciplined(h.workers);
    } else {
      PiecesNeutral(h);
      FlatNeutral(Pieces(h), 0, {});
      assert Ready([], 0, {});
    }
  }

  // ---- the whole process ----

  predicate Below(ws: set<nat>, n: nat) {
    forall w | w in ws :: w < n
  }

  /** No waiting for threads, and only existing threads are spawned. */
  predicate Plain(p: seq<Instr>, n: nat) {
    forall i | i in p :: !i.Join? && (i.Go? ==> Below(i.spawn, n))
  }

  lemma {:induction false} FlatPlain(ps: seq<seq<Instr>>, n: nat)
    requires forall p | p in ps :: Plain(p, n)
    ensures Plain(Flat(ps), n)
  {
    if ps != [] {
      var init, last := ps[..|ps| - 1], ps[|ps| - 1];
      FlatPlain(init, n);
      assert last in ps && Plain(last, n);
      assert Flat(ps) == Flat(init) + last;
    }
  }

  lemma {:induction false} RepeatPlain(times: nat, p: seq<Instr>, n: nat)
    requires Plain(p, n)
    ensures Plain(Repeat(times, p), n)
  {
    if times > 0 {
      RepeatPlain(times - 1, p, n);
    }
  }

  /** The threads a handler spawns. */
  function Spawned(h: Handler): set<nat> {
    match h
    case HandleWakeAll(ws) => ws
    case HandleStopAll(ws) => ws
    case HandleProxy(_, _, _, _, _, path) => WaiterOf(path)
    case HandleWake(_, _, path) => WaiterOf(path)
    case HandleWait(_, _, _, path, _) => WaiterOf(path)
    case WakeWorker(_, _, _, _, path) => WaiterOf(path)
    case HandleLogs(_, tail, _) => {tail}
    case _ => {}
  }

  function WaiterOf(path: StartPath): set<nat> {
    if path.StartedBy? then {path.waiter} else {}
  }

  lemma StartPlain(l: nat, path: StartPath, n: nat)
    requires Below(WaiterOf(path), n)
    ensures Plain(StartContainer(l, path), n)
  {
    match path {
      case StartFailed =>
        FlatPlain([[Call(Locked(l, Inspecting))], Section(Registry), Section(Shared), [Call(Free(Notifying))],
               Section(Shared), [Call(Locked(l, Starting))], Section(Shared), Section(Shared), [Call(Free(Notifying))]], n);
      case StartedBy(w) =>
        FlatPlain([[Call(Locked(l, Inspecting))], Section(Registry), Section(Shared), [Call(Free(Notifying))],
               Section(Shared), [Call(Locked(l, Starting))], [Go({w})]], n);
      case _ =>
    }
    FlatPlain([Section(Shared), Under(StartLock(l), StartBody(l, path))], n);
  }

  lemma StopPlain(path: StopPath, n: nat)
    ensures Plain(StopContainer(path), n)
  {
    match path
    case StopFailed => FlatPlain([Section(Shared), [Call(Free(Stopping))], Section(Shared), [Call(Free(Notifying))]], n);
    case StoppedOk =>
      FlatPlain([Section(Shared), [Call(Free(Stopping))], Section(Shared), Section(Shared), [Call(Free(Notifying))],
             Section(Registry)], n);
    case PausedOk =>
      FlatPlain([Section(Shared), [Call(Free(Stopping))], Section(Shared), [Call(Free(Notifying))], Section(Registry)], n);
  }

  lemma ProbePlain(l: nat, n: nat)
    ensures Plain(ProbeUnderLock(l), n)
  {
    FlatPlain([Section(Shared), Under(StartLock(l), [Call(Locked(l, Probing))])], n);
  }

  lemma WorkerPlain(h: Handler, n: nat)
    requires Works(h) && Below(Spawned(h), n)
    ensures forall p | p in Pieces(h) :: Plain(p, n)
  {
    match h
    case WakeWorker(_, probe, open, start, path) =>
      ProbePlain(probe, n);
      StartPlain(start, path, n);
      FlatPlain(Waking(probe, open, start, path), n);
    case StopWorker(_, running, stop, counter) =>
      StopPlain(stop, n);
      FlatPlain(StoppingOne(running, stop, counter), n);
  }

  lemma RequestPlain(h: Handler, n: nat)
    requires h.HandleProxy? || h.HandleWake? || h.HandleStop? || h.HandleWait?
    requires Below(Spawned(h), n)
    ensures forall p | p in Pieces(h) :: Plain(p, n)
  {
    match h
    case HandleProxy(_, probe, _, _, start, path) =>
      ProbePlain(probe, n);
      StartPlain(start, path, n);
    case HandleWake(_, start, path) => StartPlain(start, path, n);
    case HandleStop(_, stop) => StopPlain(stop, n);
    case HandleWait(_, _, start, path, _) => StartPlain(start, path, n);
  }

  lemma LogsPlain(h: Handler, n: nat)
    requires h.HandleLogs? && Below(Spawned(h), n)
    ensures forall p | p in Pieces(h) :: Plain(p, n)
  {
    RepeatPlain(h.lines, [Call(Other)], n);
  }

  lemma LoginPlain(h: Handler, n: nat)
    requires h.Authenticate? || h.ProcessLogin? || h.HandleLogout? || h.CollectSessions?
    ensures forall p | p in Pieces(h) :: Plain(p, n)
  {
    if h.CollectSessions? {
      RepeatPlain(h.rounds, Section(SESSIONS), n);
    }
  }

  lemma AsidePlain(h: Handler, n: nat)
    requires Aside(h) && Below(Spawned(h), n)
    ensures forall p | p in Pieces(h) :: Plain(p, n)
  {
    match h
    case HandleStatus(inspections) => RepeatPlain(inspections, [Call(Free(Inspecting))], n);
    case HandleLogs(_, _, _) => LogsPlain(h, n);
    case LogTail(_, lines) => RepeatPlain(lines, Section(VIEWERS), n);
    case Authenticate(_, _) => LoginPlain(h, n);
    case ProcessLogin(_, _, _) => LoginPlain(h, n);
    case HandleLogout(_) => LoginPlain(h, n);
    case CollectSessions(_) => LoginPlain(h, n);
    case _ =>
  }

  lemma PiecesPlain(h: Handler, n: nat)
    requires !Awaits(h) && Below(Spawned(h), n)
    ensures forall p | p in Pieces(h) :: Plain(p, n)
  {
    if Works(h) {
      WorkerPlain(h, n);
    } else if h.HandleProxy? || h.HandleWake? || h.HandleStop? || h.HandleWait? {
      RequestPlain(h, n);
    } else if Aside(h) {
      AsidePlain(h, n);
    } else {
      match h
      case WaitForReady(probes, _) => RepeatPlain(probes, [Call(Free(Probing))], n);
      case TimerCallback(stop) => StopPlain(stop, n);
      case SyncContainers(_, calls, arms) =>
        RepeatPlain(calls, [Call(Change(Shared)), Call(Other)], n);
        RepeatPlain(arms, Section(Shared), n);
      case ServeMetrics(gauges) => RepeatPlain(gauges, Section(Registry), n);
      case _ =>
    }
  }

  /** A process: every spawned thread exists, and the bulk handlers wait for their workers. */
  ghost predicate WellFormed(hs: seq<Handler>) {
    forall i | 0 <= i < |hs| ::
      && Below(Spawned(hs[i]), |hs|)
      && (Awaits(hs[i]) ==> forall w | w in Spawned(hs[i]) :: w < |hs| && (hs[w].WakeWorker? || hs[w].StopWorker?))
  }

  ghost function Process(hs: seq<Handler>): System {
    seq(|hs|, i requires 0 <= i < |hs| => Thread(false, [], {}, Program(hs[i])))
  }

  lemma ProcessInv(hs: seq<Handler>)
    requires WellFormed(hs)
    ensures Inv(Process(hs)) && Fresh(Process(hs))
  {
    var sys := Process(hs);
    forall i | 0 <= i < |sys|
      ensures Disciplined(sys[i].rest, sys[i].held, sys[i].spawned)
      ensures !Awaits(hs[i]) ==> Plain(sys[i].rest, |hs|)
    {
      HandlersDisciplined(hs[i]);
      if !Awaits(hs[i]) {
        PiecesPlain(hs[i], |hs|);
        FlatPlain(Pieces(hs[i]), |hs|);
      }
    }
    forall i | 0 <= i < |sys|
      ensures Sound(sys, sys[i].rest)
    {
      if Awaits(hs[i]) {
        var ws := hs[i].workers;
        BulkProgram(hs[i]);
        forall w | w in ws ensures w < |sys| && Joinless(sys[w].rest) {
          assert Plain(sys[w].rest, |hs|);
        }
      }
    }
  }

  /** The process never deadlocks: whatever of the listed handlers run, on whatever paths and lock objects, in every reachable state
      with an unfinished thread some thread can step. */
  lemma DocknapDeadlockFree(hs: seq<Handler>, states: seq<System>, sys: System, i: nat)
    requires WellFormed(hs) && Path(states) && states[0] == Process(hs) && sys == states[|states| - 1]
    requires i < |sys| && Unfinished(sys[i])
    ensures exists j :: MustStep(sys, j)
  {
    ProcessInv(hs);
    DeadlockFree(states, sys, i);
  }

  /** At most eight threads hold slots of a semaphore, a lock held for writing has one holder, and no thread holds two start
      locks, in every reachable state of a process. */
  lemma DocknapLocksExclude(hs: seq<Handler>, states: seq<System>, sys: System, i: nat, j: nat, k: nat, l: nat, m: nat,
                            r: Resource)
    requires WellFormed(hs) && Path(states) && states[0] == Process(hs) && sys == states[|states| - 1]
    requires i < |sys| && j < |sys|
    ensures |Holders(sys, Slot(k))| <= 8
    ensures !r.Slot? && Held(r, Write) in sys[i].held && (Held(r, Read) in sys[j].held || Held(r, Write) in sys[j].held) ==> i == j
    ensures Holds(sys[i], StartLock(l)) && Holds(sys[i], StartLock(m)) ==> l == m
  {
    ProcessInv(hs);
    LocksExclude(states, sys, i, j, k, l, m, r);
  }
}
