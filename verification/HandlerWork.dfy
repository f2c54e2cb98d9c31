/** What each handler does, step by step and without the locks, and that its locking program does exactly that. Together with
    the lock discipline this says under which lock each of these steps happens. */
module HandlerWork {
  import opened LockOrder
  import opened HandlerPrograms

  /** The work in a program, in order. */
  function Worked(p: seq<Instr>): seq<Work> {
    if p == [] then [] else if p[0].Call? then [p[0].work] + Worked(p[1..]) else Worked(p[1..])
  }

  function Times(n: nat, ws: seq<Work>): seq<Work> {
    if n == 0 then [] else ws + Times(n - 1, ws)
  }

  function Only(c: bool, ws: seq<Work>): seq<Work> {
    if c then ws else []
  }

  const READ: seq<Work> := [Look(Shared)]
  const WRITE: seq<Work> := [Change(Shared)]
  const COUNT: seq<Work> := [Change(Registry)]
  const NOTIFY: seq<Work> := [Free(Notifying)]

  /** One list after the other. */
  function Joined(ws: seq<seq<Work>>): seq<Work> {
    if ws == [] then [] else ws[0] + Joined(ws[1..])
  }

  /** The lock object is looked up and the container inspected under it; a start that is needed is counted, recorded, notified
      and its boot marked before Docker is called; a refused one is unmarked, recorded and notified. */
  function StartWork(l: nat, path: StartPath): seq<Work> {
    var inspect, start := [Locked(l, Inspecting)], [Locked(l, Starting)];
    WRITE + match path
            case InspectFailed => inspect
            case AlreadyRunning => inspect
            case StartFailed => Joined([inspect, COUNT, WRITE, NOTIFY, WRITE, start, WRITE, WRITE, NOTIFY])
            case StartedBy(_) => Joined([inspect, COUNT, WRITE, NOTIFY, WRITE, start, []])
  }

  /** The timer goes, Docker is called, the runtime state is cleared if it stopped the container, the outcome is recorded and
      notified, and counted unless it is a failure. */
  function StopWork(path: StopPath): seq<Work> {
    match path
    case StopFailed => Joined([WRITE, [Free(Stopping)], WRITE, NOTIFY])
    case StoppedOk => Joined([WRITE, [Free(Stopping)], WRITE, WRITE, NOTIFY, COUNT])
    case PausedOk => Joined([WRITE, [Free(Stopping)], WRITE, NOTIFY, COUNT])
  }

  function ProbeWork(l: nat): seq<Work> {
    WRITE + [Locked(l, Probing)]
  }

  function FailureWork(path: StartPath): seq<Work> {
    match path
    case InspectFailed => COUNT
    case StartFailed => COUNT
    case AlreadyRunning => []
    case StartedBy(_) => []
  }

  /** A handler's work, in the order of the source. */
  function WorkOf(h: Handler): seq<seq<Work>> {
    match h
    case HandleProxy(known, probe, open, disabled, start, path) =>
      if !known then [READ]
      else if open then [READ, ProbeWork(probe), Only(!disabled, WRITE), [Other], COUNT, COUNT]
      else [READ, ProbeWork(probe), StartWork(start, path), FailureWork(path), [Other], COUNT, COUNT]
    case HandleWake(known, start, path) => [READ, Only(known, StartWork(start, path))]
    case HandleStop(known, stop) => [READ, Only(known, StopWork(stop))]
    case HandleWait(known, open, start, path, timedOut) =>
      if !known then [READ]
      else if open then [READ, [Free(Probing)], READ, WRITE, WRITE, [Other]]
      else
        [READ, [Free(Probing)], WRITE, StartWork(start, path), FailureWork(path), READ, Only(timedOut, COUNT),
         Only(timedOut, WRITE), [Other]]
    case HandleWakeAll(_) => [READ, [], [], [Other]]
    case HandleStopAll(_) => [READ, [], [], [Other]]
    case WakeWorker(_, probe, open, start, path) => [Joined([ProbeWork(probe), Only(!open, StartWork(start, path))])]
    case StopWorker(_, running, stop, counter) =>
      [Joined([[Free(Inspecting)], Only(running, StopWork(stop)), Only(running, [Change(StopCount(counter))])])]
    case WaitForReady(probes, cancelled) =>
      if cancelled then [Times(probes, [Free(Probing)])]
      else [Times(probes, [Free(Probing)]), COUNT, WRITE, WRITE, NOTIFY, WRITE, [Other]]
    case TimerCallback(stop) => [COUNT, WRITE, NOTIFY, StopWork(stop)]
    case SyncContainers(listed, calls, arms) =>
      if !listed then [[Other]]
      else [[Other], READ, Times(calls, [Change(Shared), Other]), Times(arms, WRITE), COUNT]
    case ServeMetrics(gauges) => [READ, Times(gauges, COUNT), [Look(Registry)]]
    case ServeHistory(known) => if known then [READ, [Free(Inspecting)], READ, [Look(Registry)]] else [READ]
    case StopAllIdleTimers => [WRITE, [Other]]
    case HandleStatus(inspections) => [READ, Times(inspections, [Free(Inspecting)])]
    case HandleConfig => [READ, [Other]]
    case ServeServiceMetrics(known) => [READ, Only(known, [Look(Registry)])]
    case HandleLogs(known, _, lines) =>
      if !known then [READ]
      else
        [READ, [Other], [Change(VIEWERS)], [Change(TAILS)], [], Times(lines, [Other]), [Change(TAILS)], [Change(VIEWERS)]]
    case LogTail(started, lines) => [[Other], Only(started, Times(lines, [Change(VIEWERS)]))]
    case StopLogTails => [[Change(TAILS)]]
    case Authenticate(session, failed) => [Only(session, [Change(SESSIONS)]), Only(failed, COUNT), [Other]]
    case ProcessLogin(limited, complete, valid) =>
      if limited || (complete && !valid) then [[Change(ATTEMPTS)], COUNT, [], [Other]]
      else if complete then [[Change(ATTEMPTS)], [], [Change(SESSIONS)], [Other]]
      else [[Change(ATTEMPTS)], [], [], [Other]]
    case HandleLogout(session) => [Only(session, [Change(SESSIONS)]), [Other]]
    case CollectSessions(rounds) => [Times(rounds, [Change(SESSIONS)])]
  }

  lemma {:induction false} WorkedConcat(p: seq<Instr>, q: seq<Instr>)
    ensures Worked(p + q) == Worked(p) + Worked(q)
  {
    if p == [] {
      assert p + q == q;
    } else {
      assert (p + q)[1..] == p[1..] + q;
      WorkedConcat(p[1..], q);
    }
  }

  /** Piece by piece the program does the work. */
  ghost predicate Alike(ps: seq<seq<Instr>>, ws: seq<seq<Work>>) {
    |ps| == |ws| && forall k | 0 <= k < |ps| :: Worked(ps[k]) == ws[k]
  }

  lemma {:induction false} FlatWorked(ps: seq<seq<Instr>>, ws: seq<seq<Work>>)
    requires Alike(ps, ws)
    ensures Worked(Flat(ps)) == Joined(ws)
  {
    if ps != [] {
      FlatWorked(ps[1..], ws[1..]);
      FlatFirst(ps[0], ps[1..]);
      assert [ps[0]] + ps[1..] == ps;
      WorkedConcat(ps[0], Flat(ps[1..]));
    }
  }

  lemma Single(instr: Instr)
    ensures Worked([instr]) == if instr.Call? then [instr.work] else []
  {
    assert [instr][1..] == [];
  }

  lemma Surrounded(r: Resource, m: Mode, p: seq<Instr>)
    ensures Worked([Acquire(r, m)] + p + [Release(r)]) == Worked(p)
  {
    Single(Acquire(r, m));
    Single(Release(r));
    WorkedConcat([Acquire(r, m)] + p, [Release(r)]);
    WorkedConcat([Acquire(r, m)], p);
  }

  lemma SectionWork(r: Resource)
    ensures Worked(Section(r)) == [Change(r)] && Worked(ReadSection(r)) == [Look(r)]
  {
    Single(Call(Change(r)));
    Single(Call(Look(r)));
    Surrounded(r, Write, [Call(Change(r))]);
    Surrounded(r, Read, [Call(Look(r))]);
  }

  lemma {:induction false} RepeatWork(n: nat, p: seq<Instr>)
    ensures Worked(Repeat(n, p)) == Times(n, Worked(p))
  {
    if n > 0 {
      RepeatWork(n - 1, p);
      WorkedConcat(p, Repeat(n - 1, p));
    }
  }

  /** The pieces that most programs are made of. */
  lemma Stock()
    ensures Worked(Section(Shared)) == WRITE && Worked(ReadSection(Shared)) == READ
    ensures Worked(Section(Registry)) == COUNT && Worked(ReadSection(Registry)) == [Look(Registry)]
    ensures Worked([Call(Other)]) == [Other] && forall task :: Worked([Call(Free(task))]) == [Free(task)]
  {
    SectionWork(Shared);
    SectionWork(Registry);
    Single(Call(Other));
    forall task ensures Worked([Call(Free(task))]) == [Free(task)] { Single(Call(Free(task))); }
  }

  lemma ProbeWorked(l: nat)
    ensures Worked(ProbeUnderLock(l)) == ProbeWork(l)
  {
    Stock();
    Single(Call(Locked(l, Probing)));
    Surrounded(StartLock(l), Write, [Call(Locked(l, Probing))]);
    UnderSection(Under(StartLock(l), [Call(Locked(l, Probing))]));
  }

  lemma UnderSection(p: seq<Instr>)
    ensures Worked(Flat([Section(Shared), p])) == WRITE + Worked(p)
  {
    Stock();
    FlatFirst(p, []);
    FlatFirst(Section(Shared), [p]);
    assert [p] + [] == [p] && p + [] == p && [Section(Shared)] + [p] == [Section(Shared), p];
    WorkedConcat(Section(Shared), p);
  }

  lemma StartWorked(l: nat, path: StartPath)
    ensures Worked(StartContainer(l, path)) == StartWork(l, path)
  {
    Stock();
    var inspect, start := [Call(Locked(l, Inspecting))], [Call(Locked(l, Starting))];
    var inspected, started := [Locked(l, Inspecting)], [Locked(l, Starting)];
    Single(Call(Locked(l, Inspecting)));
    Single(Call(Locked(l, Starting)));
    match path {
      case StartFailed =>
        FlatWorked([inspect, Section(Registry), Section(Shared), [Call(Free(Notifying))], Section(Shared), start,
                Section(Shared), Section(Shared), [Call(Free(Notifying))]],
               [inspected, COUNT, WRITE, NOTIFY, WRITE, started, WRITE, WRITE, NOTIFY]);
      case StartedBy(w) =>
        Single(Go({w}));
        FlatWorked([inspect, Section(Registry), Section(Shared), [Call(Free(Notifying))], Section(Shared), start, [Go({w})]],
               [inspected, COUNT, WRITE, NOTIFY, WRITE, started, []]);
      case _ =>
    }
    Surrounded(StartLock(l), Write, StartBody(l, path));
    UnderSection(Under(StartLock(l), StartBody(l, path)));
  }

  lemma StopWorked(path: StopPath)
    ensures Worked(StopContainer(path)) == StopWork(path)
  {
    Stock();
    var write, stop, notify := Section(Shared), [Call(Free(Stopping))], [Call(Free(Notifying))];
    match path
    case StopFailed => FlatWorked([write, stop, write, notify], [WRITE, [Free(Stopping)], WRITE, NOTIFY]);
    case StoppedOk =>
      FlatWorked([write, stop, write, write, notify, Section(Registry)], [WRITE, [Free(Stopping)], WRITE, WRITE, NOTIFY, COUNT]);
    case PausedOk => FlatWorked([write, stop, write, notify, Section(Registry)], [WRITE, [Free(Stopping)], WRITE, NOTIFY, COUNT]);
  }

  lemma ProxyAlike(known: bool, probe: nat, open: bool, disabled: bool, start: nat, path: StartPath)
    ensures var h := HandleProxy(known, probe, open, disabled, start, path); Alike(Pieces(h), WorkOf(h))
  {
    Stock();
    ProbeWorked(probe);
    StartWorked(start, path);
    assert Worked(CountFailure(path)) == FailureWork(path);
  }

  lemma WaitAlike(known: bool, open: bool, start: nat, path: StartPath, timedOut: bool)
    ensures var h := HandleWait(known, open, start, path, timedOut); Alike(Pieces(h), WorkOf(h))
  {
    Stock();
    StartWorked(start, path);
    assert Worked(CountFailure(path)) == FailureWork(path);
  }

  lemma WakeAlike(known: bool, start: nat, path: StartPath)
    ensures Alike(Pieces(HandleWake(known, start, path)), WorkOf(HandleWake(known, start, path)))
  {
    Stock();
    StartWorked(start, path);
  }

  lemma StopAlike(known: bool, stop: StopPath)
    ensures Alike(Pieces(HandleStop(known, stop)), WorkOf(HandleStop(known, stop)))
  {
    Stock();
    StopWorked(stop);
  }

  lemma CallbackAlike(stop: StopPath)
    ensures Alike(Pieces(TimerCallback(stop)), WorkOf(TimerCallback(stop)))
  {
    Stock();
    StopWorked(stop);
  }

  lemma WakeAllAlike(ws: set<nat>)
    ensures Alike(Pieces(HandleWakeAll(ws)), WorkOf(HandleWakeAll(ws)))
  {
    Stock();
    Single(Go(ws));
    Single(Join(ws));
  }

  lemma StopAllAlike(ws: set<nat>)
    ensures Alike(Pieces(HandleStopAll(ws)), WorkOf(HandleStopAll(ws)))
  {
    Stock();
    Single(Go(ws));
    Single(Join(ws));
  }

  lemma WakeWorkerAlike(slots: nat, probe: nat, open: bool, start: nat, path: StartPath)
    ensures var h := WakeWorker(slots, probe, open, start, path); Alike(Pieces(h), WorkOf(h))
  {
    ProbeWorked(probe);
    StartWorked(start, path);
    FlatWorked(Waking(probe, open, start, path), [ProbeWork(probe), Only(!open, StartWork(start, path))]);
    Surrounded(Slot(slots), Write, Flat(Waking(probe, open, start, path)));
  }

  lemma StopWorkerAlike(slots: nat, running: bool, stop: StopPath, counter: nat)
    ensures var h := StopWorker(slots, running, stop, counter); Alike(Pieces(h), WorkOf(h))
  {
    Stock();
    StopWorked(stop);
    SectionWork(StopCount(counter));
    FlatWorked(StoppingOne(running, stop, counter),
           [[Free(Inspecting)], Only(running, StopWork(stop)), Only(running, [Change(StopCount(counter))])]);
    Surrounded(Slot(slots), Write, Flat(StoppingOne(running, stop, counter)));
  }

  lemma WaiterAlike(probes: nat, cancelled: bool)
    ensures Alike(Pieces(WaitForReady(probes, cancelled)), WorkOf(WaitForReady(probes, cancelled)))
  {
    Stock();
    RepeatWork(probes, [Call(Free(Probing))]);
  }

  /** One round of the merge. */
  lemma RoundWork(calls: nat)
    ensures Worked(Under(Shared, Repeat(calls, [Call(Change(Shared)), Call(Other)]))) == Times(calls, [Change(Shared), Other])
  {
    var round := [Call(Change(Shared)), Call(Other)];
    Single(Call(Change(Shared)));
    Single(Call(Other));
    WorkedConcat([Call(Change(Shared))], [Call(Other)]);
    assert [Call(Change(Shared))] + [Call(Other)] == round && [Change(Shared)] + [Other] == [Change(Shared), Other];
    RepeatWork(calls, round);
    Surrounded(Shared, Write, Repeat(calls, round));
  }

  lemma SyncAlike(listed: bool, calls: nat, arms: nat)
    ensures Alike(Pieces(SyncContainers(listed, calls, arms)), WorkOf(SyncContainers(listed, calls, arms)))
  {
    Stock();
    RoundWork(calls);
    RepeatWork(arms, Section(Shared));
  }

  lemma MetricsAlike(gauges: nat)
    ensures Alike(Pieces(ServeMetrics(gauges)), WorkOf(ServeMetrics(gauges)))
  {
    Stock();
    RepeatWork(gauges, Section(Registry));
  }

  lemma ServiceMetricsAlike(known: bool)
    ensures Alike(Pieces(ServeServiceMetrics(known)), WorkOf(ServeServiceMetrics(known)))
  {
    Stock();
  }

  lemma HistoryAlike(known: bool)
    ensures Alike(Pieces(ServeHistory(known)), WorkOf(ServeHistory(known)))
  {
    Stock();
  }

  lemma ConfigAlike()
    ensures Alike(Pieces(HandleConfig), WorkOf(HandleConfig))
  {
    Stock();
  }

  lemma ShutdownAlike()
    ensures Alike(Pieces(StopAllIdleTimers), WorkOf(StopAllIdleTimers))
  {
    Stock();
  }

  lemma StatusAlike(inspections: nat)
    ensures Alike(Pieces(HandleStatus(inspections)), WorkOf(HandleStatus(inspections)))
  {
    Stock();
    RepeatWork(inspections, [Call(Free(Inspecting))]);
  }

  lemma ViewerAlike(known: bool, tail: nat, lines: nat)
    ensures Alike(Pieces(HandleLogs(known, tail, lines)), WorkOf(HandleLogs(known, tail, lines)))
  {
    Stock();
    SectionWork(TAILS);
    SectionWork(VIEWERS);
    Single(Go({tail}));
    RepeatWork(lines, [Call(Other)]);
  }

  lemma TailAlike(started: bool, lines: nat)
    ensures Alike(Pieces(LogTail(started, lines)), WorkOf(LogTail(started, lines)))
  {
    Single(Call(Other));
    SectionWork(VIEWERS);
    RepeatWork(lines, Section(VIEWERS));
  }

  lemma StopTailsAlike()
    ensures Alike(Pieces(StopLogTails), WorkOf(StopLogTails))
  {
    SectionWork(TAILS);
  }

  lemma LoginAlike(limited: bool, complete: bool, valid: bool)
    ensures Alike(Pieces(ProcessLogin(limited, complete, valid)), WorkOf(ProcessLogin(limited, complete, valid)))
  {
    Stock();
    SectionWork(ATTEMPTS);
    SectionWork(SESSIONS);
  }

  lemma AuthenticateAlike(session: bool, failed: bool)
    ensures Alike(Pieces(Authenticate(session, failed)), WorkOf(Authenticate(session, failed)))
  {
    Stock();
    SectionWork(SESSIONS);
  }

  lemma LogoutAlike(session: bool)
    ensures Alike(Pieces(HandleLogout(session)), WorkOf(HandleLogout(session)))
  {
    Single(Call(Other));
    SectionWork(SESSIONS);
  }

  lemma CollectAlike(rounds: nat)
    ensures Alike(Pieces(CollectSessions(rounds)), WorkOf(CollectSessions(rounds)))
  {
    SectionWork(SESSIONS);
    RepeatWork(rounds, Section(SESSIONS));
  }

  lemma PageAlike(h: Handler)
    requires Aside(h) || h.ServeMetrics? || h.ServeHistory? || h.StopAllIdleTimers? || h.SyncContainers? || h.WaitForReady?
    ensures Alike(Pieces(h), WorkOf(h))
  {
    match h
    case WaitForReady(probes, cancelled) => WaiterAlike(probes, cancelled);
    case SyncContainers(listed, calls, arms) => SyncAlike(listed, calls, arms);
    case ServeMetrics(gauges) => MetricsAlike(gauges);
    case ServeServiceMetrics(known) => ServiceMetricsAlike(known);
    case ServeHistory(known) => HistoryAlike(known);
    case HandleConfig => ConfigAlike();
    case StopAllIdleTimers => ShutdownAlike();
    case HandleStatus(inspections) => StatusAlike(inspections);
    case HandleLogs(known, tail, lines) => ViewerAlike(known, tail, lines);
    case LogTail(started, lines) => TailAlike(started, lines);
    case StopLogTails => StopTailsAlike();
    case ProcessLogin(limited, complete, valid) => LoginAlike(limited, complete, valid);
    case Authenticate(session, failed) => AuthenticateAlike(session, failed);
    case HandleLogout(session) => LogoutAlike(session);
    case CollectSessions(rounds) => CollectAlike(rounds);
  }

  lemma HandlerAlike(h: Handler)
    ensures Alike(Pieces(h), WorkOf(h))
  {
    match h
    case HandleProxy(known, probe, open, disabled, start, path) => ProxyAlike(known, probe, open, disabled, start, path);
    case HandleWait(known, open, start, path, timedOut) => WaitAlike(known, open, start, path, timedOut);
    case HandleWake(known, start, path) => WakeAlike(known, start, path);
    case HandleStop(known, stop) => StopAlike(known, stop);
    case TimerCallback(stop) => CallbackAlike(stop);
    case HandleWakeAll(ws) => WakeAllAlike(ws);
    case HandleStopAll(ws) => StopAllAlike(ws);
    case WakeWorker(slots, probe, open, start, path) => WakeWorkerAlike(slots, probe, open, start, path);
    case StopWorker(slots, running, stop, counter) => StopWorkerAlike(slots, running, stop, counter);
    case _ => PageAlike(h);
  }

  /** Every handler, on each of its control paths, does exactly its work, in this order. */
  lemma HandlersWork(h: Handler)
    ensures Worked(Program(h)) == Joined(WorkOf(h))
  {
    HandlerAlike(h);
    FlatWorked(Pieces(h), WorkOf(h));
  }
}
