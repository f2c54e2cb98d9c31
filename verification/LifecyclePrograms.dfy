/** The lifecycle machine and the locking programs of the handlers are two views of the same code: what a lifecycle thread locks,
    does and spawns from its first step to its last is a stretch of the program of a handler, and every such stretch is
    performed by some lifecycle thread. */
module LifecyclePrograms {
  import opened Services
  import opened Tally
  import opened LockOrder
  import opened HandlerPrograms
  import opened HandlerWork
  import L = Lifecycle

  /** What a thread meets in one step: its container, the lock object the table gives, whether shutdown has begun, what Docker
      or the probe answers, and the number of the thread it may spawn. */
  datatype Answer = Answer(box: L.Box, lock: nat, cancelled: bool, choice: bool, spawned: nat)

  /** What one step of a lifecycle thread locks and does. */
  function Performs(t: L.Thread, a: Answer): seq<Instr> {
    match t.pc
    case WaitProbe => [Call(Free(Probing))]
    case WaitMark => Section(Shared)
    case AcquireProbe => Section(Shared)
    case LockProbe(l) => [Acquire(StartLock(l), Write)]
    case Probe(l) => [Call(Locked(l, Probing))]
    case UnlockProbe(l, _) => [Release(StartLock(l))]
    case ResetIdle => If(!t.cfg.disableIdle, Section(Shared))
    case Acquire => Section(Shared)
    case Lock(l) => [Acquire(StartLock(l), Write)]
    case Inspect(l) => [Call(Locked(l, Inspecting))]
    case CountStart(_, _) => Section(Registry)
    case LogRequested(_, _) => Section(Shared) + [Call(Free(Notifying))]
    case MarkBoot(_, _) => Section(Shared)
    case Issue(l, _) => [Call(Locked(l, Starting))]
    case ClearBoot(_) => Section(Shared)
    case LogStartError(_) => Section(Shared) + [Call(Free(Notifying))]
    case Spawn(_) => [Go({a.spawned})]
    case Unlock(l) => [Release(StartLock(l))]
    case Waiting => If(a.choice || !a.cancelled, [Call(Free(Probing))])
    case ObserveDuration => Section(Registry)
    case PublishReady => Section(Shared)
    case LogReady => Section(Shared) + [Call(Free(Notifying))]
    case Broadcast => Section(Shared) + [Call(Other)]
    case StopInspect => [Call(Free(Inspecting))]
    case CountIdle => Section(Registry)
    case LogIdle => Section(Shared) + [Call(Free(Notifying))]
    case TakeTimer => Section(Shared)
    case StopCall => [Call(Free(Stopping))]
    case LogStopError => Section(Shared) + [Call(Free(Notifying))]
    case ClearRuntime => Section(Shared)
    case LogStopped(_) => Section(Shared) + [Call(Free(Notifying))]
    case CountStop => Section(Registry)
    case Done => []
    case Cancelled => []
  }

  function Moved(t: L.Thread, a: Answer): L.Thread {
    t.(pc := L.NextPc(t, a.box, a.lock, a.cancelled, a.choice))
  }

  /** The answers take the thread to its end. */
  predicate Walks(t: L.Thread, answers: seq<Answer>)
    decreases answers
  {
    if answers == [] then L.Finished(t) else !L.Finished(t) && Walks(Moved(t, answers[0]), answers[1..])
  }

  /** All it does on the way. */
  function Walked(t: L.Thread, answers: seq<Answer>): seq<Instr>
    decreases answers
  {
    if answers == [] then [] else Performs(t, answers[0]) + Walked(Moved(t, answers[0]), answers[1..])
  }

  /** One step earlier. */
  lemma Prepend(t: L.Thread, a: Answer, rest: seq<Answer>) returns (answers: seq<Answer>)
    requires !L.Finished(t) && Walks(Moved(t, a), rest)
    ensures Walks(t, answers) && Walked(t, answers) == Performs(t, a) + Walked(Moved(t, a), rest)
  {
    answers := [a] + rest;
    assert answers[1..] == rest;
  }

  /** One step later. */
  lemma WalkOn(t: L.Thread, answers: seq<Answer>) returns (a: Answer, rest: seq<Answer>)
    requires !L.Finished(t) && Walks(t, answers)
    ensures Walks(Moved(t, a), rest) && Walked(t, answers) == Performs(t, a) + Walked(Moved(t, a), rest)
    ensures |rest| == |answers| - 1
  {
    a, rest := answers[0], answers[1..];
  }

  lemma EndOfWalk(t: L.Thread, answers: seq<Answer>)
    requires L.Finished(t) && Walks(t, answers)
    ensures Walked(t, answers) == []
  {
  }

  // Starts

  predicate Needed(path: StartPath) {
    path.StartFailed? || path.StartedBy?
  }

  /** The place lies on the path. */
  predicate OnPath(pc: L.Pc, path: StartPath) {
    match pc
    case Acquire => true
    case Lock(_) => true
    case Inspect(_) => true
    case CountStart(_, _) => Needed(path)
    case LogRequested(_, _) => Needed(path)
    case MarkBoot(_, _) => Needed(path)
    case Issue(_, _) => Needed(path)
    case ClearBoot(_) => path.StartFailed?
    case LogStartError(_) => path.StartFailed?
    case Spawn(_) => path.StartedBy?
    case Unlock(_) => true
    case _ => false
  }

  function Failing(l: nat): seq<Instr> {
    Section(Shared) + (Section(Shared) + ([Call(Free(Notifying))] + [Release(StartLock(l))]))
  }

  function Issuing(l: nat, path: StartPath): seq<Instr> {
    [Call(Locked(l, Starting))] + if path.StartedBy? then [Go({path.waiter})] + [Release(StartLock(l))] else Failing(l)
  }

  function Requesting(l: nat, path: StartPath): seq<Instr> {
    Section(Shared) + ([Call(Free(Notifying))] + (Section(Shared) + Issuing(l, path)))
  }

  /** What a start under lock object `l` still has to do. */
  function StartRest(pc: L.Pc, l: nat, path: StartPath): seq<Instr> {
    var release := [Release(StartLock(l))];
    var inspect := [Call(Locked(l, Inspecting))] + if Needed(path) then Section(Registry) + Requesting(l, path) else release;
    match pc
    case Acquire => Section(Shared) + ([Acquire(StartLock(l), Write)] + inspect)
    case Lock(_) => [Acquire(StartLock(l), Write)] + inspect
    case Inspect(_) => inspect
    case CountStart(_, _) => Section(Registry) + Requesting(l, path)
    case LogRequested(_, _) => Requesting(l, path)
    case MarkBoot(_, _) => Section(Shared) + Issuing(l, path)
    case Issue(_, _) => Issuing(l, path)
    case ClearBoot(_) => Failing(l)
    case LogStartError(_) => Section(Shared) + ([Call(Free(Notifying))] + release)
    case Spawn(_) => if path.StartedBy? then [Go({path.waiter})] + release else []
    case _ => release
  }

  lemma FlatTwo(p: seq<Instr>, q: seq<Instr>)
    ensures Flat([p, q]) == p + q
  {
    FlatFirst(q, []);
    FlatFirst(p, [q]);
    assert [p, q] == [p] + [q] && [q] == [q] + [];
  }

  lemma FailedFlat(start: seq<Instr>, notify: seq<Instr>)
    ensures Flat([start, Section(Shared), Section(Shared), notify]) == start + (Section(Shared) + (Section(Shared) + notify))
  {
    FlatTwo(Section(Shared), notify);
    FlatFirst(Section(Shared), [Section(Shared), notify]);
    FlatFirst(start, [Section(Shared), Section(Shared), notify]);
    assert [Section(Shared)] + [Section(Shared), notify] == [Section(Shared), Section(Shared), notify];
    assert [start] + [Section(Shared), Section(Shared), notify] == [start, Section(Shared), Section(Shared), notify];
  }

  lemma FailedBody(l: nat)
    ensures StartBody(l, StartFailed) + [Release(StartLock(l))] == StartRest(L.Inspect(l), l, StartFailed)
  {
    var inspect, notify, start := [Call(Locked(l, Inspecting))], [Call(Free(Notifying))], [Call(Locked(l, Starting))];
    var rest := [start, Section(Shared), Section(Shared), notify];
    FailedFlat(start, notify);
    RequestedFlat(inspect, notify, rest);
    assert [inspect, Section(Registry), Section(Shared), notify, Section(Shared)] + rest ==
           [inspect, Section(Registry), Section(Shared), notify, Section(Shared), start, Section(Shared), Section(Shared), notify];
  }

  lemma StartedBody(l: nat, w: nat)
    ensures StartBody(l, StartedBy(w)) + [Release(StartLock(l))] == StartRest(L.Inspect(l), l, StartedBy(w))
  {
    var inspect, notify, start := [Call(Locked(l, Inspecting))], [Call(Free(Notifying))], [Call(Locked(l, Starting))];
    FlatTwo(start, [Go({w})]);
    RequestedFlat(inspect, notify, [start, [Go({w})]]);
    assert [inspect, Section(Registry), Section(Shared), notify, Section(Shared)] + [start, [Go({w})]] ==
           [inspect, Section(Registry), Section(Shared), notify, Section(Shared), start, [Go({w})]];
  }

  lemma BodyRest(l: nat, path: StartPath)
    ensures StartBody(l, path) + [Release(StartLock(l))] == StartRest(L.Inspect(l), l, path)
  {
    match path
    case StartFailed => FailedBody(l);
    case StartedBy(w) => StartedBody(l, w);
    case _ =>
  }

  lemma ContainerRest(l: nat, path: StartPath)
    ensures StartContainer(l, path) == StartRest(L.Acquire, l, path)
  {
    BodyRest(l, path);
    FlatTwo(Section(Shared), Under(StartLock(l), StartBody(l, path)));
    assert [Acquire(StartLock(l), Write)] + StartBody(l, path) + [Release(StartLock(l))] ==
           [Acquire(StartLock(l), Write)] + (StartBody(l, path) + [Release(StartLock(l))]);
  }

  lemma RequestedFlat(inspect: seq<Instr>, notify: seq<Instr>, rest: seq<seq<Instr>>)
    ensures Flat([inspect, Section(Registry), Section(Shared), notify, Section(Shared)] + rest) ==
            inspect + (Section(Registry) + (Section(Shared) + (notify + (Section(Shared) + Flat(rest)))))
  {
    var p4 := [Section(Shared)] + rest;
    var p3 := [notify] + p4;
    var p2 := [Section(Shared)] + p3;
    var p1 := [Section(Registry)] + p2;
    FlatFirst(Section(Shared), rest);
    FlatFirst(notify, p4);
    FlatFirst(Section(Shared), p3);
    FlatFirst(Section(Registry), p2);
    FlatFirst(inspect, p1);
    assert [inspect, Section(Registry), Section(Shared), notify, Section(Shared)] + rest == [inspect] + p1;
  }

  /** From the moment the start lock has been looked up. */
  predicate StartPc(pc: L.Pc) {
    pc.Lock? || (L.Crit(pc).Some? && !pc.Probe? && !pc.UnlockProbe?)
  }

  lemma UnlockStep(t: L.Thread, a: Answer)
    requires t.pc.Unlock?
    ensures Moved(t, a).pc == L.Done && Performs(t, a) == [Release(StartLock(t.pc.lock))]
  {
  }

  lemma UnlockEnds(t: L.Thread, answers: seq<Answer>)
    requires Walks(t, answers) && t.pc.Unlock?
    ensures Walked(t, answers) == [Release(StartLock(t.pc.lock))]
  {
    var a, rest := WalkOn(t, answers);
    UnlockStep(t, a);
    EndOfWalk(Moved(t, a), rest);
  }

  /** The path of a start, one step earlier. */
  function Chosen(t: L.Thread, a: Answer, path: StartPath): StartPath {
    match t.pc
    case Spawn(_) => StartedBy(a.spawned)
    case LogStartError(_) => StartFailed
    case Inspect(_) => if Moved(t, a).pc.Unlock? then (if a.choice then AlreadyRunning else InspectFailed) else path
    case _ => path
  }

  lemma StartStep(t: L.Thread, a: Answer, l: nat, path: StartPath)
    requires StartPc(t.pc) && !t.pc.Unlock? && L.Grip(t.pc) == Some(l)
    ensures StartPc(Moved(t, a).pc) && L.Grip(Moved(t, a).pc) == Some(l)
    ensures OnPath(Moved(t, a).pc, path) ==>
              && OnPath(t.pc, Chosen(t, a, path))
              && StartRest(t.pc, l, Chosen(t, a, path)) == Performs(t, a) + StartRest(Moved(t, a).pc, l, path)
  {
  }

  /** A start that has its lock object does the rest of some path. */
  lemma {:induction false} StartEnds(t: L.Thread, answers: seq<Answer>, l: nat) returns (path: StartPath)
    requires Walks(t, answers) && StartPc(t.pc) && L.Grip(t.pc) == Some(l)
    ensures OnPath(t.pc, path) && Walked(t, answers) == StartRest(t.pc, l, path)
    decreases |answers|
  {
    if t.pc.Unlock? {
      UnlockEnds(t, answers);
      path := AlreadyRunning;
    } else {
      var a, rest := WalkOn(t, answers);
      StartStep(t, a, l, AlreadyRunning);
      path := StartEnds(Moved(t, a), rest, l);
      StartStep(t, a, l, path);
      path := Chosen(t, a, path);
    }
  }

  /** How many steps a start can still take. */
  function StartLeft(pc: L.Pc): nat {
    match pc
    case Lock(_) => 9
    case Inspect(_) => 8
    case CountStart(_, _) => 7
    case LogRequested(_, _) => 6
    case MarkBoot(_, _) => 5
    case Issue(_, _) => 4
    case ClearBoot(_) => 3
    case LogStartError(_) => 2
    case Spawn(_) => 2
    case _ => 1
  }

  /** The answers that keep a start on its path. */
  function StartAnswer(pc: L.Pc, path: StartPath): Answer {
    Answer(if Needed(path) then L.Down else L.Up, 0, false,
           if pc.Inspect? then !path.InspectFailed? else path.StartedBy?,
           if path.StartedBy? then path.waiter else 0)
  }

  lemma StartAnswered(t: L.Thread, l: nat, path: StartPath)
    requires StartPc(t.pc) && !t.pc.Unlock? && L.Grip(t.pc) == Some(l) && OnPath(t.pc, path)
    ensures var a := StartAnswer(t.pc, path);
            && OnPath(Moved(t, a).pc, path) && Chosen(t, a, path) == path && StartLeft(Moved(t, a).pc) < StartLeft(t.pc)
  {
  }

  lemma {:induction false} StartGoes(t: L.Thread, l: nat, path: StartPath) returns (answers: seq<Answer>)
    requires StartPc(t.pc) && L.Grip(t.pc) == Some(l) && OnPath(t.pc, path)
    ensures Walks(t, answers) && Walked(t, answers) == StartRest(t.pc, l, path)
    decreases StartLeft(t.pc)
  {
    var a := StartAnswer(t.pc, path);
    if t.pc.Unlock? {
      answers := Prepend(t, a, []);
    } else {
      StartAnswered(t, l, path);
      StartStep(t, a, l, path);
      answers := StartGoes(Moved(t, a), l, path);
      answers := Prepend(t, a, answers);
    }
  }

  /** The whole start, from the lookup of its lock object. */
  lemma WholeStartEnds(t: L.Thread, answers: seq<Answer>) returns (l: nat, path: StartPath)
    requires Walks(t, answers) && t.pc == L.Acquire
    ensures Walked(t, answers) == StartContainer(l, path)
  {
    var a, rest := WalkOn(t, answers);
    l := a.lock;
    path := StartEnds(Moved(t, a), rest, l);
    ContainerRest(l, path);
  }

  lemma WholeStartGoes(t: L.Thread, l: nat, path: StartPath) returns (answers: seq<Answer>)
    requires t.pc == L.Acquire
    ensures Walks(t, answers) && Walked(t, answers) == StartContainer(l, path)
  {
    var a := Answer(L.Down, l, false, true, 0);
    answers := StartGoes(Moved(t, a), l, path);
    ContainerRest(l, path);
    answers := Prepend(t, a, answers);
  }

  // Probes under the start lock

  function ProbeRest(l: nat): seq<Instr> {
    Section(Shared) + ([Acquire(StartLock(l), Write)] + ([Call(Locked(l, Probing))] + [Release(StartLock(l))]))
  }

  lemma ProbeIsRest(l: nat)
    ensures ProbeUnderLock(l) == ProbeRest(l)
  {
    FlatTwo(Section(Shared), Under(StartLock(l), [Call(Locked(l, Probing))]));
  }

  /** A request that has probed under the lock. */
  function Probed(t: L.Thread, open: bool): L.Thread {
    t.(pc := if !open then L.Acquire else if t.role == L.Proxy then L.ResetIdle else L.Done)
  }

  /** The four steps of a probe under the lock. */
  lemma ProbeSteps(t: L.Thread, a: Answer, b: Answer, c: Answer, d: Answer)
    requires t.pc == L.AcquireProbe
    ensures var t1 := Moved(t, a);
            var t2 := Moved(t1, b);
            var t3 := Moved(t2, c);
            && t1.pc.LockProbe? && t2.pc.Probe? && t3.pc.UnlockProbe? && Moved(t3, d) == Probed(t, c.choice)
            && Performs(t, a) + (Performs(t1, b) + (Performs(t2, c) + Performs(t3, d))) == ProbeUnderLock(a.lock)
  {
    ProbeIsRest(a.lock);
  }

  lemma Regroup(a: seq<Instr>, b: seq<Instr>, c: seq<Instr>, d: seq<Instr>, e: seq<Instr>)
    ensures a + (b + (c + (d + e))) == (a + (b + (c + d))) + e
  {
  }

  lemma ProbeEnds(t: L.Thread, answers: seq<Answer>) returns (l: nat, open: bool, rest: seq<Answer>)
    requires Walks(t, answers) && t.pc == L.AcquireProbe
    ensures Walks(Probed(t, open), rest)
    ensures Walked(t, answers) == ProbeUnderLock(l) + Walked(Probed(t, open), rest)
  {
    var a, b, c, d;
    a, rest := WalkOn(t, answers);
    var t1 := Moved(t, a);
    ProbeSteps(t, a, a, a, a);
    b, rest := WalkOn(t1, rest);
    var t2 := Moved(t1, b);
    ProbeSteps(t, a, b, a, a);
    c, rest := WalkOn(t2, rest);
    var t3 := Moved(t2, c);
    ProbeSteps(t, a, b, c, a);
    d, rest := WalkOn(t3, rest);
    l, open := a.lock, c.choice;
    ProbeSteps(t, a, b, c, d);
    Regroup(Performs(t, a), Performs(t1, b), Performs(t2, c), Performs(t3, d), Walked(Probed(t, open), rest));
  }

  lemma ProbeGoes(t: L.Thread, l: nat, open: bool, rest: seq<Answer>) returns (answers: seq<Answer>)
    requires t.pc == L.AcquireProbe && Walks(Probed(t, open), rest)
    ensures Walks(t, answers) && Walked(t, answers) == ProbeUnderLock(l) + Walked(Probed(t, open), rest)
  {
    var a := Answer(L.Down, l, false, open, 0);
    var t1 := Moved(t, a);
    var t2 := Moved(t1, a);
    var t3 := Moved(t2, a);
    ProbeSteps(t, a, a, a, a);
    answers := Prepend(t3, a, rest);
    answers := Prepend(t2, a, answers);
    answers := Prepend(t1, a, answers);
    answers := Prepend(t, a, answers);
    Regroup(Performs(t, a), Performs(t1, a), Performs(t2, a), Performs(t3, a), Walked(Probed(t, open), rest));
  }

  lemma ResetEnds(t: L.Thread, answers: seq<Answer>)
    requires Walks(t, answers) && t.pc == L.ResetIdle
    ensures Walked(t, answers) == If(!t.cfg.disableIdle, Section(Shared))
  {
    var a, rest := WalkOn(t, answers);
    EndOfWalk(Moved(t, a), rest);
  }

  // Stops

  /** What a stop can come to under a configuration. */
  predicate StopFits(cfg: Config, path: StopPath) {
    path.StopFailed? || (path.PausedOk? <==> cfg.strategy == PauseStrategy)
  }

  predicate StopOnPath(pc: L.Pc, cfg: Config, path: StopPath) {
    match pc
    case TakeTimer => StopFits(cfg, path)
    case StopCall => StopFits(cfg, path)
    case LogStopError => path.StopFailed?
    case ClearRuntime => path.StoppedOk?
    case LogStopped(_) => !path.StopFailed?
    case CountStop => !path.StopFailed?
    case _ => false
  }

  function StopRest(pc: L.Pc, path: StopPath): seq<Instr> {
    var told := Section(Shared) + [Call(Free(Notifying))];
    var counted := told + Section(Registry);
    var answered := if path.StopFailed? then told else if path.StoppedOk? then Section(Shared) + counted else counted;
    match pc
    case TakeTimer => Section(Shared) + ([Call(Free(Stopping))] + answered)
    case StopCall => [Call(Free(Stopping))] + answered
    case LogStopError => told
    case ClearRuntime => Section(Shared) + counted
    case LogStopped(_) => counted
    case _ => Section(Registry)
  }

  lemma StopIsRest(path: StopPath)
    ensures StopContainer(path) == StopRest(L.TakeTimer, path)
  {
    var stop, notify := [Call(Free(Stopping))], [Call(Free(Notifying))];
    match path
    case StopFailed =>
      FlatTwo(Section(Shared), notify);
      StopFlat(stop, [Section(Shared), notify]);
      assert [Section(Shared), stop] + [Section(Shared), notify] == [Section(Shared), stop, Section(Shared), notify];
    case StoppedOk => StoppedIsRest();
    case PausedOk =>
      CountedFlat();
      StopFlat(stop, [Section(Shared), notify, Section(Registry)]);
      assert [Section(Shared), stop] + [Section(Shared), notify, Section(Registry)] ==
             [Section(Shared), stop, Section(Shared), notify, Section(Registry)];
  }

  lemma CountedFlat()
    ensures Flat([Section(Shared), [Call(Free(Notifying))], Section(Registry)]) ==
            Section(Shared) + [Call(Free(Notifying))] + Section(Registry)
  {
    var notify := [Call(Free(Notifying))];
    FlatTwo(notify, Section(Registry));
    FlatFirst(Section(Shared), [notify, Section(Registry)]);
    assert [Section(Shared)] + [notify, Section(Registry)] == [Section(Shared), notify, Section(Registry)];
  }

  lemma StoppedIsRest()
    ensures StopContainer(StoppedOk) == StopRest(L.TakeTimer, StoppedOk)
  {
    var stop, notify := [Call(Free(Stopping))], [Call(Free(Notifying))];
    var counted := [Section(Shared), notify, Section(Registry)];
    CountedFlat();
    FlatFirst(Section(Shared), counted);
    StopFlat(stop, [Section(Shared)] + counted);
    assert [Section(Shared), stop] + ([Section(Shared)] + counted) ==
           [Section(Shared), stop, Section(Shared), Section(Shared), notify, Section(Registry)];
  }

  lemma StopFlat(stop: seq<Instr>, rest: seq<seq<Instr>>)
    ensures Flat([Section(Shared), stop] + rest) == Section(Shared) + (stop + Flat(rest))
  {
    FlatFirst(stop, rest);
    FlatFirst(Section(Shared), [stop] + rest);
    assert [Section(Shared), stop] + rest == [Section(Shared)] + ([stop] + rest);
  }

  predicate StopPc(pc: L.Pc) {
    pc.TakeTimer? || pc.StopCall? || pc.LogStopError? || pc.ClearRuntime? || pc.LogStopped? || pc.CountStop?
  }

  /** The path of a stop, one step before it ends, or the one it is on. */
  function StopChosen(t: L.Thread, path: StopPath): StopPath {
    if t.pc.LogStopError? then StopFailed
    else if t.pc.CountStop? then (if t.cfg.strategy == PauseStrategy then PausedOk else StoppedOk)
    else path
  }

  lemma StopStep(t: L.Thread, a: Answer, path: StopPath)
    requires StopPc(t.pc) && (t.pc.ClearRuntime? ==> t.cfg.strategy == StopStrategy)
    ensures var next, path' := Moved(t, a).pc, StopChosen(t, path);
            if next.Done? then
              StopOnPath(t.pc, t.cfg, path') && StopFits(t.cfg, path') && StopRest(t.pc, path') == Performs(t, a)
            else
              && StopPc(next) && (next.ClearRuntime? ==> t.cfg.strategy == StopStrategy) && path' == path
              && (StopOnPath(next, t.cfg, path) && StopFits(t.cfg, path) ==>
                    StopOnPath(t.pc, t.cfg, path) && StopRest(t.pc, path) == Performs(t, a) + StopRest(next, path))
  {
  }

  lemma {:induction false} StopEnds(t: L.Thread, answers: seq<Answer>) returns (path: StopPath)
    requires Walks(t, answers) && StopPc(t.pc) && (t.pc.ClearRuntime? ==> t.cfg.strategy == StopStrategy)
    ensures StopOnPath(t.pc, t.cfg, path) && StopFits(t.cfg, path) && Walked(t, answers) == StopRest(t.pc, path)
    decreases |answers|
  {
    var a, rest := WalkOn(t, answers);
    StopStep(t, a, StopFailed);
    path := StopFailed;
    if Moved(t, a).pc.Done? {
      EndOfWalk(Moved(t, a), rest);
    } else {
      path := StopEnds(Moved(t, a), rest);
    }
    StopStep(t, a, path);
    path := StopChosen(t, path);
  }

  function StopLeft(pc: L.Pc): nat {
    match pc
    case TakeTimer => 6
    case StopCall => 5
    case ClearRuntime => 4
    case LogStopped(_) => 3
    case _ => 2
  }

  lemma {:induction false} StopGoes(t: L.Thread, path: StopPath) returns (answers: seq<Answer>)
    requires StopOnPath(t.pc, t.cfg, path) && StopFits(t.cfg, path)
    ensures Walks(t, answers) && Walked(t, answers) == StopRest(t.pc, path)
    decreases StopLeft(t.pc)
  {
    var a := Answer(L.Up, 0, false, !path.StopFailed?, 0);
    answers := [];
    if Moved(t, a).pc != L.Done {
      answers := StopGoes(Moved(t, a), path);
    }
    answers := Prepend(t, a, answers);
  }

  // Waiters

  function ReadyRest(pc: L.Pc): seq<Instr> {
    var send := Section(Shared) + [Call(Other)];
    var told := Section(Shared) + ([Call(Free(Notifying))] + send);
    match pc
    case ObserveDuration => Section(Registry) + (Section(Shared) + told)
    case PublishReady => Section(Shared) + told
    case LogReady => told
    case _ => send
  }

  predicate Readying(pc: L.Pc) {
    pc.ObserveDuration? || pc.PublishReady? || pc.LogReady? || pc.Broadcast?
  }

  lemma ReadyStep(t: L.Thread, a: Answer)
    requires Readying(t.pc)
    ensures var next := Moved(t, a).pc;
            if t.pc.Broadcast? then next.Done? && ReadyRest(t.pc) == Performs(t, a)
            else Readying(next) && ReadyRest(t.pc) == Performs(t, a) + ReadyRest(next) && ReadyLeft(next) < ReadyLeft(t.pc)
  {
  }

  lemma {:induction false} ReadyEnds(t: L.Thread, answers: seq<Answer>)
    requires Walks(t, answers) && Readying(t.pc)
    ensures Walked(t, answers) == ReadyRest(t.pc)
    decreases |answers|
  {
    var a, rest := WalkOn(t, answers);
    ReadyStep(t, a);
    if t.pc.Broadcast? {
      EndOfWalk(Moved(t, a), rest);
    } else {
      ReadyEnds(Moved(t, a), rest);
    }
  }

  function ReadyLeft(pc: L.Pc): nat {
    if pc.ObserveDuration? then 4 else if pc.PublishReady? then 3 else if pc.LogReady? then 2 else 1
  }

  lemma {:induction false} ReadyGoes(t: L.Thread) returns (answers: seq<Answer>)
    requires Readying(t.pc)
    ensures Walks(t, answers) && Walked(t, answers) == ReadyRest(t.pc)
    decreases ReadyLeft(t.pc)
  {
    var a := Answer(L.Up, 0, false, true, 0);
    answers := [];
    ReadyStep(t, a);
    if !t.pc.Broadcast? {
      answers := ReadyGoes(Moved(t, a));
    }
    answers := Prepend(t, a, answers);
  }

  /** What a waiter does that probes `probes` times. */
  function WaiterRest(probes: nat, cancelled: bool): seq<Instr> {
    Repeat(probes, [Call(Free(Probing))]) + if cancelled then [] else ReadyRest(L.ObserveDuration)
  }

  lemma ReadyFlat()
    ensures Flat([Section(Registry), Section(Shared), Section(Shared), [Call(Free(Notifying))], Section(Shared), [Call(Other)]])
            == ReadyRest(L.ObserveDuration)
  {
    var notify := [Call(Free(Notifying))];
    var p3 := [notify, Section(Shared), [Call(Other)]];
    var p2 := [Section(Shared), notify, Section(Shared), [Call(Other)]];
    FlatTwo(Section(Shared), [Call(Other)]);
    FlatFirst(notify, [Section(Shared), [Call(Other)]]);
    assert p3 == [notify] + [Section(Shared), [Call(Other)]] && p2 == [Section(Shared)] + p3;
    FlatFirst(Section(Shared), p3);
    FlatFirst(Section(Shared), p2);
    FlatFirst(Section(Registry), [Section(Shared)] + p2);
    assert [Section(Registry)] + ([Section(Shared)] + p2) ==
           [Section(Registry), Section(Shared), Section(Shared), notify, Section(Shared), [Call(Other)]];
  }

  lemma WaiterIsRest(probes: nat, cancelled: bool)
    ensures Program(WaitForReady(probes, cancelled)) == WaiterRest(probes, cancelled)
  {
    var probing := Repeat(probes, [Call(Free(Probing))]);
    if cancelled {
      FlatFirst(probing, []);
      assert [probing] + [] == [probing];
    } else {
      var ready := [Section(Registry), Section(Shared), Section(Shared), [Call(Free(Notifying))], Section(Shared), [Call(Other)]];
      ReadyFlat();
      FlatFirst(probing, ready);
      assert Pieces(WaitForReady(probes, cancelled)) == [probing] + ready;
    }
  }

  lemma OneProbe()
    ensures Repeat(1, [Call(Free(Probing))]) == [Call(Free(Probing))]
  {
    assert Repeat(1, [Call(Free(Probing))]) == [Call(Free(Probing))] + Repeat(0, [Call(Free(Probing))]);
  }

  lemma ProbeMore(probes: nat, cancelled: bool)
    ensures WaiterRest(probes + 1, cancelled) == [Call(Free(Probing))] + WaiterRest(probes, cancelled)
  {
  }

  lemma {:induction false} WaiterEnds(t: L.Thread, answers: seq<Answer>) returns (probes: nat, cancelled: bool)
    requires Walks(t, answers) && t.pc == L.Waiting
    ensures Walked(t, answers) == WaiterRest(probes, cancelled) && (cancelled || probes > 0)
    decreases |answers|
  {
    var a, rest := WalkOn(t, answers);
    if a.choice {
      ReadyEnds(Moved(t, a), rest);
      OneProbe();
      probes, cancelled := 1, false;
    } else if a.cancelled {
      EndOfWalk(Moved(t, a), rest);
      probes, cancelled := 0, true;
    } else {
      probes, cancelled := WaiterEnds(Moved(t, a), rest);
      ProbeMore(probes, cancelled);
      probes := probes + 1;
    }
  }

  lemma LastProbeGoes(t: L.Thread) returns (answers: seq<Answer>)
    requires t.pc == L.Waiting
    ensures Walks(t, answers) && Walked(t, answers) == WaiterRest(1, false)
  {
    var a := Answer(L.Up, 0, false, true, 0);
    answers := ReadyGoes(Moved(t, a));
    answers := Prepend(t, a, answers);
    OneProbe();
  }

  lemma {:induction false} WaiterGoes(t: L.Thread, probes: nat, cancelled: bool) returns (answers: seq<Answer>)
    requires t.pc == L.Waiting && (cancelled || probes > 0)
    ensures Walks(t, answers) && Walked(t, answers) == WaiterRest(probes, cancelled)
    decreases probes
  {
    if cancelled && probes == 0 {
      answers := Prepend(t, Answer(L.Up, 0, true, false, 0), []);
    } else if !cancelled && probes == 1 {
      answers := LastProbeGoes(t);
    } else {
      var a := Answer(L.Up, 0, false, false, 0);
      answers := WaiterGoes(t, probes - 1, cancelled);
      assert Moved(t, a) == t;
      answers := Prepend(t, a, answers);
      ProbeMore(probes - 1, cancelled);
    }
  }

  // Whole threads

  function First(role: L.Role, cfg: Config): L.Thread {
    L.Thread(role, cfg, L.FirstPc(role))
  }

  /** The handler is one that a thread of this role and configuration can be part of. */
  predicate Plays(h: Handler, role: L.Role, cfg: Config) {
    match role
    case Proxy => h.HandleProxy? && h.known && h.disabled == cfg.disableIdle
    case WakeAll => h.WakeWorker?
    case Wake => h.HandleWake? && h.known
    case Wait => h.HandleWait? && h.known
    case Waiter => h.WaitForReady? && (h.cancelled || h.probes > 0)
    case IdleStop => h.TimerCallback? && StopFits(cfg, h.stop)
    case ManualStop => h.HandleStop? && h.known && StopFits(cfg, h.stop)
    case StopAll => h.StopWorker? && StopFits(cfg, h.stop)
  }

  /** The stretch of its program that the lifecycle describes: what comes before is the lookup of the service or of the
      semaphore, and what comes after are the answer and the handler's own counters. */
  function Stretch(h: Handler): seq<Instr> {
    match h
    case HandleProxy(true, _, _, _, _, _) => Flat(Pieces(h)[1..3])
    case WakeWorker(_, _, _, _, _) => InSlot(h)
    case HandleWake(true, _, _) => Pieces(h)[1]
    case HandleWait(true, open, _, _, _) => Flat(Pieces(h)[1..if open then 2 else 4])
    case WaitForReady(_, _) => Program(h)
    case TimerCallback(_) => Program(h)
    case HandleStop(true, _) => Pieces(h)[1]
    case StopWorker(_, running, stop, counter) => Flat(StoppingOne(running, stop, counter)[..2])
    case _ => []
  }

  lemma ProxyStretch(h: Handler)
    requires h.HandleProxy? && h.known
    ensures Stretch(h) == ProbeUnderLock(h.probe) +
                          if h.open then If(!h.disabled, Section(Shared)) else StartContainer(h.start, h.path)
  {
    if h.open {
      FlatTwo(ProbeUnderLock(h.probe), If(!h.disabled, Section(Shared)));
      assert Pieces(h)[1..3] == [ProbeUnderLock(h.probe), If(!h.disabled, Section(Shared))];
    } else {
      FlatTwo(ProbeUnderLock(h.probe), StartContainer(h.start, h.path));
      assert Pieces(h)[1..3] == [ProbeUnderLock(h.probe), StartContainer(h.start, h.path)];
    }
  }

  lemma WakeStretch(h: Handler)
    requires h.WakeWorker?
    ensures Stretch(h) == ProbeUnderLock(h.probe) + if h.open then [] else StartContainer(h.start, h.path)
  {
    FlatTwo(ProbeUnderLock(h.probe), If(!h.open, StartContainer(h.start, h.path)));
  }

  lemma WaitStretch(h: Handler)
    requires h.HandleWait? && h.known
    ensures Stretch(h) == [Call(Free(Probing))] + if h.open then [] else Section(Shared) + StartContainer(h.start, h.path)
  {
    var probe := [Call(Free(Probing))];
    if h.open {
      FlatFirst(probe, []);
      assert Pieces(h)[1..2] == [probe] + [];
    } else {
      FlatTwo(Section(Shared), StartContainer(h.start, h.path));
      FlatFirst(probe, [Section(Shared), StartContainer(h.start, h.path)]);
      assert Pieces(h)[1..4] == [probe] + [Section(Shared), StartContainer(h.start, h.path)];
    }
  }

  lemma IdleStretch(stop: StopPath)
    ensures Stretch(TimerCallback(stop)) == Section(Registry) + (Section(Shared) + ([Call(Free(Notifying))] + StopContainer(stop)))
  {
    var notify := [Call(Free(Notifying))];
    FlatTwo(notify, StopContainer(stop));
    FlatFirst(Section(Shared), [notify, StopContainer(stop)]);
    FlatFirst(Section(Registry), [Section(Shared)] + [notify, StopContainer(stop)]);
    assert Pieces(TimerCallback(stop)) == [Section(Registry)] + ([Section(Shared)] + [notify, StopContainer(stop)]);
  }

  lemma StopAllStretch(h: Handler)
    requires h.StopWorker?
    ensures Stretch(h) == [Call(Free(Inspecting))] + If(h.running, StopContainer(h.stop))
  {
    FlatTwo([Call(Free(Inspecting))], If(h.running, StopContainer(h.stop)));
    assert StoppingOne(h.running, h.stop, h.counter)[..2] == [[Call(Free(Inspecting))], If(h.running, StopContainer(h.stop))];
  }

  // Every walk is a stretch

  lemma ProbingWalk(t: L.Thread, answers: seq<Answer>) returns (h: Handler)
    requires t == First(t.role, t.cfg) && (t.role == L.Proxy || t.role == L.WakeAll) && Walks(t, answers)
    ensures Plays(h, t.role, t.cfg) && Walked(t, answers) == Stretch(h)
  {
    var l, open, rest := ProbeEnds(t, answers);
    var start, path := 0, AlreadyRunning;
    if !open {
      start, path := WholeStartEnds(Probed(t, open), rest);
    } else if t.role == L.Proxy {
      ResetEnds(Probed(t, open), rest);
    } else {
      EndOfWalk(Probed(t, open), rest);
    }
    if t.role == L.Proxy {
      h := HandleProxy(true, l, open, t.cfg.disableIdle, start, path);
      ProxyStretch(h);
    } else {
      h := WakeWorker(0, l, open, start, path);
      WakeStretch(h);
    }
  }

  lemma WaitingWalk(t: L.Thread, answers: seq<Answer>) returns (h: Handler)
    requires t == First(L.Wait, t.cfg) && Walks(t, answers)
    ensures Plays(h, t.role, t.cfg) && Walked(t, answers) == Stretch(h)
  {
    var a, rest := WalkOn(t, answers);
    var t1 := Moved(t, a);
    if a.choice {
      EndOfWalk(t1, rest);
      h := HandleWait(true, true, 0, AlreadyRunning, false);
    } else {
      var b;
      b, rest := WalkOn(t1, rest);
      var start, path := WholeStartEnds(Moved(t1, b), rest);
      h := HandleWait(true, false, start, path, false);
    }
    WaitStretch(h);
  }

  /** The two steps of a timer callback before its stop. */
  lemma IdleSteps(t: L.Thread, a: Answer, b: Answer)
    requires t == First(L.IdleStop, t.cfg)
    ensures var t1 := Moved(t, a);
            && !L.Finished(t1) && Moved(t1, b) == t.(pc := L.TakeTimer)
            && Performs(t, a) + Performs(t1, b) == Section(Registry) + (Section(Shared) + [Call(Free(Notifying))])
  {
  }

  lemma IdleJoins(stop: StopPath)
    ensures Stretch(TimerCallback(stop)) == Section(Registry) + (Section(Shared) + [Call(Free(Notifying))]) + StopContainer(stop)
  {
    IdleStretch(stop);
  }

  lemma Assoc(a: seq<Instr>, b: seq<Instr>, c: seq<Instr>)
    ensures a + (b + c) == (a + b) + c
  {
  }

  lemma IdleWalk(t: L.Thread, answers: seq<Answer>) returns (h: Handler)
    requires t == First(L.IdleStop, t.cfg) && Walks(t, answers)
    ensures Plays(h, t.role, t.cfg) && Walked(t, answers) == Stretch(h)
  {
    var a, rest := WalkOn(t, answers);
    var t1 := Moved(t, a);
    IdleSteps(t, a, a);
    var b;
    b, rest := WalkOn(t1, rest);
    IdleSteps(t, a, b);
    var stop := StopEnds(Moved(t1, b), rest);
    StopIsRest(stop);
    Assoc(Performs(t, a), Performs(t1, b), StopContainer(stop));
    IdleJoins(stop);
    h := TimerCallback(stop);
  }

  /** The look that a stop-all worker takes at its container. */
  lemma LookStep(t: L.Thread, a: Answer)
    requires t == First(L.StopAll, t.cfg)
    ensures Moved(t, a) == t.(pc := if a.choice && a.box != L.Down then L.TakeTimer else L.Done)
    ensures Performs(t, a) == [Call(Free(Inspecting))]
  {
  }

  lemma StopAllWalk(t: L.Thread, answers: seq<Answer>) returns (h: Handler)
    requires t == First(L.StopAll, t.cfg) && Walks(t, answers)
    ensures Plays(h, t.role, t.cfg) && Walked(t, answers) == Stretch(h)
  {
    var a, rest := WalkOn(t, answers);
    var stop := StopFailed;
    var running := a.choice && a.box != L.Down;
    LookStep(t, a);
    if running {
      stop := StopEnds(Moved(t, a), rest);
      StopIsRest(stop);
    } else {
      EndOfWalk(Moved(t, a), rest);
    }
    h := StopWorker(0, running, stop, 0);
    StopAllStretch(h);
  }

  /** Whatever a lifecycle thread meets, from its first step to its last it locks, does and spawns what a stretch of the
      program of a handler of its role says, in that order and nothing else. */
  lemma EveryWalkIsAStretch(role: L.Role, cfg: Config, answers: seq<Answer>) returns (h: Handler)
    requires Walks(First(role, cfg), answers)
    ensures Plays(h, role, cfg) && Walked(First(role, cfg), answers) == Stretch(h)
  {
    var t := First(role, cfg);
    match role
    case Proxy => h := ProbingWalk(t, answers);
    case WakeAll => h := ProbingWalk(t, answers);
    case Wake =>
      var start, path := WholeStartEnds(t, answers);
      h := HandleWake(true, start, path);
    case Wait => h := WaitingWalk(t, answers);
    case Waiter =>
      var probes, cancelled := WaiterEnds(t, answers);
      WaiterIsRest(probes, cancelled);
      h := WaitForReady(probes, cancelled);
    case IdleStop => h := IdleWalk(t, answers);
    case ManualStop =>
      var stop := StopEnds(t, answers);
      StopIsRest(stop);
      h := HandleStop(true, stop);
    case StopAll => h := StopAllWalk(t, answers);
  }

  // Every stretch is a walk

  lemma ProbingGoes(t: L.Thread, h: Handler) returns (answers: seq<Answer>)
    requires t == First(t.role, t.cfg) && (t.role == L.Proxy || t.role == L.WakeAll) && Plays(h, t.role, t.cfg)
    ensures Walks(t, answers) && Walked(t, answers) == Stretch(h)
  {
    var next := Probed(t, h.open);
    answers := [];
    if !h.open {
      answers := WholeStartGoes(next, h.start, h.path);
    } else if t.role == L.Proxy {
      answers := Prepend(next, Answer(L.Up, 0, false, true, 0), []);
      ResetEnds(next, answers);
    }
    answers := ProbeGoes(t, h.probe, h.open, answers);
    if t.role == L.Proxy {
      ProxyStretch(h);
    } else {
      WakeStretch(h);
    }
  }

  lemma WaitingGoes(t: L.Thread, h: Handler) returns (answers: seq<Answer>)
    requires t == First(L.Wait, t.cfg) && Plays(h, t.role, t.cfg)
    ensures Walks(t, answers) && Walked(t, answers) == Stretch(h)
  {
    var a := Answer(L.Down, 0, false, h.open, 0);
    answers := [];
    if !h.open {
      answers := WholeStartGoes(t.(pc := L.Acquire), h.start, h.path);
      answers := Prepend(t.(pc := L.WaitMark), a, answers);
    }
    answers := Prepend(t, a, answers);
    WaitStretch(h);
  }

  lemma IdleGoes(t: L.Thread, stop: StopPath) returns (answers: seq<Answer>)
    requires t == First(L.IdleStop, t.cfg) && StopFits(t.cfg, stop)
    ensures Walks(t, answers) && Walked(t, answers) == Stretch(TimerCallback(stop))
  {
    var a := Answer(L.Up, 0, false, true, 0);
    IdleSteps(t, a, a);
    answers := StopGoes(t.(pc := L.TakeTimer), stop);
    answers := Prepend(Moved(t, a), a, answers);
    answers := Prepend(t, a, answers);
    StopIsRest(stop);
    Assoc(Performs(t, a), Performs(Moved(t, a), a), StopContainer(stop));
    IdleJoins(stop);
  }

  lemma StopAllGoes(t: L.Thread, h: Handler) returns (answers: seq<Answer>)
    requires t == First(L.StopAll, t.cfg) && Plays(h, t.role, t.cfg)
    ensures Walks(t, answers) && Walked(t, answers) == Stretch(h)
  {
    var a := Answer(L.Up, 0, false, h.running, 0);
    LookStep(t, a);
    answers := [];
    if h.running {
      answers := StopGoes(Moved(t, a), h.stop);
      StopIsRest(h.stop);
    }
    answers := Prepend(t, a, answers);
    StopAllStretch(h);
  }

  /** And every such stretch is what some lifecycle thread of that role does. */
  lemma EveryStretchIsAWalk(role: L.Role, cfg: Config, h: Handler) returns (answers: seq<Answer>)
    requires Plays(h, role, cfg)
    ensures Walks(First(role, cfg), answers) && Walked(First(role, cfg), answers) == Stretch(h)
  {
    var t := First(role, cfg);
    match role
    case Proxy => answers := ProbingGoes(t, h);
    case WakeAll => answers := ProbingGoes(t, h);
    case Wake => answers := WholeStartGoes(t, h.start, h.path);
    case Wait => answers := WaitingGoes(t, h);
    case Waiter =>
      answers := WaiterGoes(t, h.probes, h.cancelled);
      WaiterIsRest(h.probes, h.cancelled);
    case IdleStop => answers := IdleGoes(t, h.stop);
    case ManualStop =>
      answers := StopGoes(t, h.stop);
      StopIsRest(h.stop);
    case StopAll => answers := StopAllGoes(t, h);
  }

  // Runs

  /** What thread `i` has met in a run so far. */
  function Met(s0: L.State, steps: seq<L.Step>, i: nat): seq<Answer>
    decreases |steps|
  {
    if steps == [] then []
    else
      var before, step := steps[..|steps| - 1], steps[|steps| - 1];
      var s := L.Exec(s0, before);
      if step.Run? && step.i == i && i < |s.threads| then Met(s0, before, i) + [AnswerOf(s, i, step.choice)]
      else Met(s0, before, i)
  }

  function AnswerOf(s: L.State, i: nat, choice: bool): Answer
    requires i < |s.threads|
  {
    var c := s.threads[i].cfg.container;
    Answer(L.BoxOf(s, c), L.LockFor(s.locks, c, s.nextLock), s.cancelled, choice, |s.threads|)
  }

  /** The answers take `t` to `t'`, and it is not at its end before. */
  predicate Leads(t: L.Thread, answers: seq<Answer>, t': L.Thread)
    decreases |answers|
  {
    if answers == [] then t == t' else !L.Finished(t) && Leads(Moved(t, answers[0]), answers[1..], t')
  }

  lemma {:induction false} LeadsMore(t: L.Thread, answers: seq<Answer>, t': L.Thread, a: Answer)
    requires Leads(t, answers, t') && !L.Finished(t')
    ensures Leads(t, answers + [a], Moved(t', a))
    decreases |answers|
  {
    if answers != [] {
      LeadsMore(Moved(t, answers[0]), answers[1..], t', a);
      assert (answers + [a])[1..] == answers[1..] + [a];
    }
  }

  lemma {:induction false} LeadsToEnd(t: L.Thread, answers: seq<Answer>, t': L.Thread)
    requires Leads(t, answers, t') && L.Finished(t')
    ensures Walks(t, answers)
    decreases |answers|
  {
    if answers != [] {
      LeadsToEnd(Moved(t, answers[0]), answers[1..], t');
    }
  }

  /** A thread that does not exist has met nothing. */
  lemma {:induction false} NewHasMetNothing(s0: L.State, steps: seq<L.Step>, i: nat)
    requires i >= |L.Exec(s0, steps).threads|
    ensures Met(s0, steps, i) == []
    decreases |steps|
  {
    if steps != [] {
      var before := steps[..|steps| - 1];
      L.StepGrows(L.Exec(s0, before), steps[|steps| - 1]);
      NewHasMetNothing(s0, before, i);
    }
  }

  lemma StepLeads(s: L.State, step: L.Step, i: nat, met: seq<Answer>)
    requires L.Enabled(s, step) && i < |s.threads| && Leads(First(s.threads[i].role, s.threads[i].cfg), met, s.threads[i])
    ensures i < |L.Apply(s, step).threads|
    ensures var t := L.Apply(s, step).threads[i];
            Leads(First(t.role, t.cfg), if step.Run? && step.i == i then met + [AnswerOf(s, i, step.choice)] else met, t)
  {
    var t := s.threads[i];
    L.StepGrows(s, step);
    L.ThreadAfter(s, step, i);
    if step.Run? && step.i == i {
      LeadsMore(First(t.role, t.cfg), met, t, AnswerOf(s, i, step.choice));
    }
  }

  lemma NewLeads(s: L.State, step: L.Step, i: nat)
    requires L.Enabled(s, step) && |s.threads| <= i < |L.Apply(s, step).threads|
    ensures var t := L.Apply(s, step).threads[i]; Leads(First(t.role, t.cfg), [], t)
  {
    L.ThreadAfter(s, step, i);
  }

  lemma {:induction false} MetLeads(now: int, boxes: map<string, L.Box>, steps: seq<L.Step>, i: nat)
    requires L.Legal(L.Boot(now, boxes), steps) && i < |L.Exec(L.Boot(now, boxes), steps).threads|
    ensures var t := L.Exec(L.Boot(now, boxes), steps).threads[i];
            Leads(First(t.role, t.cfg), Met(L.Boot(now, boxes), steps, i), t)
    decreases |steps|
  {
    var s0 := L.Boot(now, boxes);
    var before, step := steps[..|steps| - 1], steps[|steps| - 1];
    var s := L.Exec(s0, before);
    if i < |s.threads| {
      MetLeads(now, boxes, before, i);
      StepLeads(s, step, i, Met(s0, before, i));
    } else {
      NewHasMetNothing(s0, before, i);
      NewLeads(s, step, i);
    }
  }

  /** Over every lifecycle run, every thread that has come to its end has performed the stretch of a handler's program. */
  lemma {:induction false} FinishedThreads(now: int, boxes: map<string, L.Box>, steps: seq<L.Step>, i: nat) returns (h: Handler)
    requires L.Legal(L.Boot(now, boxes), steps) && i < |L.Exec(L.Boot(now, boxes), steps).threads|
    requires L.Finished(L.Exec(L.Boot(now, boxes), steps).threads[i])
    ensures var t := L.Exec(L.Boot(now, boxes), steps).threads[i];
            && Plays(h, t.role, t.cfg)
            && Walked(First(t.role, t.cfg), Met(L.Boot(now, boxes), steps, i)) == Stretch(h)
  {
    var t := L.Exec(L.Boot(now, boxes), steps).threads[i];
    MetLeads(now, boxes, steps, i);
    LeadsToEnd(First(t.role, t.cfg), Met(L.Boot(now, boxes), steps, i), t);
    h := EveryWalkIsAStretch(t.role, t.cfg, Met(L.Boot(now, boxes), steps, i));
  }
}
