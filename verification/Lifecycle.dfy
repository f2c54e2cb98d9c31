/** The container lifecycle as a step machine.

    One step is one critical section of the shared mutex, of a container's start lock or of the metrics
    registry, or one Docker call. Threads are the request handlers, the wake-all and stop-all workers, the
    idle-timer callbacks and the ready-waiters; the syncer, the clock and Docker itself take steps of
    their own. Every thread may be interleaved with every other one between any two steps. */
module Lifecycle {
  import opened Tally
  import opened Services
  import T = IdleTimers

  /** Docker's view of a container: not running, running, or running but frozen. */
  datatype Box = Down | Up | Frozen

  datatype Role = Proxy | WakeAll | Wake | Wait | Waiter | IdleStop | ManualStop | StopAll

  datatype Reason = Idle | Manual | ManualAll

  /** Where a thread is. `lock` is a start-lock object; `paused` is what the inspection under the lock saw. */
  datatype Pc =
      // handleWait looks at the port before it does anything else
    | WaitProbe
    | WaitMark
      // handleProxy and the wake-all workers look at the port under the start lock
    | AcquireProbe
    | LockProbe(lock: nat)
    | Probe(lock: nat)
    | UnlockProbe(lock: nat, open: bool)
    | ResetIdle
      // startContainer
    | Acquire
    | Lock(lock: nat)
    | Inspect(lock: nat)
    | CountStart(lock: nat, paused: bool)
    | LogRequested(lock: nat, paused: bool)
    | MarkBoot(lock: nat, paused: bool)
    | Issue(lock: nat, paused: bool)
    | ClearBoot(lock: nat)
    | LogStartError(lock: nat)
    | Spawn(lock: nat)
    | Unlock(lock: nat)
      // waitForReady
    | Waiting
    | ObserveDuration
    | PublishReady
    | LogReady
    | Broadcast
      // the timer callback, handleStop and the stop-all workers
    | StopInspect
    | CountIdle
    | LogIdle
    | TakeTimer
    | StopCall
    | LogStopError
    | ClearRuntime
    | LogStopped(frozen: bool)
    | CountStop
      // the end
    | Done
    | Cancelled

  datatype Thread = Thread(role: Role, cfg: Config, pc: Pc)

  /** Everything docknap counts or records, plus the two facts about containers that a start is judged by. */
  datatype Effect =
    | StartCounted(sub: string)
    | StartRequested(sub: string)
    | StartFailed(sub: string)
    | DurationObserved(sub: string)
    | ReadyLogged(sub: string)
    | IdleCounted(sub: string)
    | IdleLogged(sub: string)
    | StoppedLogged(sub: string, reason: Reason)
    | PausedLogged(sub: string, reason: Reason)
    | StopFailed(sub: string, reason: Reason)
    | StopCounted(sub: string, reason: Reason)
      // `wasted` says that the container was running already
    | WentUp(container: string, wasted: bool)
    | WentDown(container: string)

  datatype LockOp = KeepLock | GetLock | TakeLock(lock: nat) | FreeLock(lock: nat)

  function ReasonOf(role: Role): Reason {
    match role
    case ManualStop => Manual
    case StopAll => ManualAll
    case _ => Idle
  }

  /** Start works on a stopped container and is a no-op on a running one; Docker refuses to start a frozen one.
      Unpause works on a frozen container only, and pause on a running one only. */
  predicate DockerAccepts(t: Thread, box: Box) {
    match t.pc
    case Issue(_, paused) =>
      if t.cfg.strategy == PauseStrategy && paused then box == Frozen else box != Frozen
    case StopCall => t.cfg.strategy == StopStrategy || box == Up
    case _ => true
  }

  /** Where thread `t` goes in one step. `box` is the state of its container and `lock` the lock object that the
      table gives for it. `choice` resolves what the environment decides: whether a Docker call
      or a probe succeeds. */
  function NextPc(t: Thread, box: Box, lock: nat, cancelled: bool, choice: bool): Pc {
    match t.pc
    case WaitProbe => if choice then Done else WaitMark
    case WaitMark => Acquire
    case AcquireProbe => LockProbe(lock)
    case LockProbe(l) => Probe(l)
    case Probe(l) => UnlockProbe(l, choice)
    case UnlockProbe(l, open) => if !open then Acquire else if t.role == Proxy then ResetIdle else Done
    case ResetIdle => Done
    case Acquire => Lock(lock)
    case Lock(l) => Inspect(l)
    case Inspect(l) =>
      var awake := box == Up || (box == Frozen && t.cfg.strategy == StopStrategy);
      if !choice || awake then Unlock(l) else CountStart(l, box == Frozen)
    case CountStart(l, p) => LogRequested(l, p)
    case LogRequested(l, p) => MarkBoot(l, p)
    case MarkBoot(l, p) => Issue(l, p)
    case Issue(l, p) => if choice then Spawn(l) else ClearBoot(l)
    case ClearBoot(l) => LogStartError(l)
    case LogStartError(l) => Unlock(l)
    case Spawn(l) => Unlock(l)
    case Unlock(l) => Done
    case Waiting => if choice then ObserveDuration else if cancelled then Cancelled else Waiting
    case ObserveDuration => PublishReady
    case PublishReady => LogReady
    case LogReady => Broadcast
    case Broadcast => Done
    case StopInspect => if choice && box != Down then TakeTimer else Done
    case CountIdle => LogIdle
    case LogIdle => TakeTimer
    case TakeTimer => StopCall
    case StopCall =>
      if !choice then LogStopError else if t.cfg.strategy == PauseStrategy then LogStopped(true) else ClearRuntime
    case LogStopError => Done
    case ClearRuntime => LogStopped(false)
    case LogStopped(_) => CountStop
    case CountStop => Done
    case Done => Done
    case Cancelled => Cancelled
  }

  /** What the step counts or records. */
  function EffectOf(t: Thread, box: Box, choice: bool): Option<Effect> {
    var sub := t.cfg.subdomain;
    match t.pc
    case CountStart(_, _) => Some(StartCounted(sub))
    case LogRequested(_, _) => Some(StartRequested(sub))
    case Issue(_, _) => if choice then Some(WentUp(t.cfg.container, box == Up)) else None
    case LogStartError(_) => Some(StartFailed(sub))
    case ObserveDuration => Some(DurationObserved(sub))
    case LogReady => Some(ReadyLogged(sub))
    case CountIdle => Some(IdleCounted(sub))
    case LogIdle => Some(IdleLogged(sub))
    case StopCall => if choice && box == Up then Some(WentDown(t.cfg.container)) else None
    case LogStopError => Some(StopFailed(sub, ReasonOf(t.role)))
    case LogStopped(frozen) =>
      Some(if frozen then PausedLogged(sub, ReasonOf(t.role)) else StoppedLogged(sub, ReasonOf(t.role)))
    case CountStop => Some(StopCounted(sub, ReasonOf(t.role)))
    case _ => None
  }

  /** A successful start hands the service over to a waiter. */
  function SpawnOf(t: Thread): Option<Thread> {
    if t.pc.Spawn? then Some(Thread(Waiter, t.cfg, Waiting)) else None
  }

  function BoxAfter(t: Thread, box: Box, choice: bool): Box {
    if !choice then box
    else if t.pc.Issue? then Up
    else if t.pc.StopCall? then (if t.cfg.strategy == PauseStrategy then Frozen else Down)
    else box
  }

  function LockOpOf(pc: Pc): LockOp {
    match pc
    case AcquireProbe => GetLock
    case Acquire => GetLock
    case LockProbe(l) => TakeLock(l)
    case Lock(l) => TakeLock(l)
    case UnlockProbe(l, _) => FreeLock(l)
    case Unlock(l) => FreeLock(l)
    case _ => KeepLock
  }

  /** `locks` is the table of start locks, `owner` says which thread holds which lock object and `nextLock` is the
      next unused lock object. `torn` is history: the containers whose lock entry was deleted while some thread was
      on its way to start them, for as long as there is one. */
  datatype State = State(
    table: T.Table,
    boxes: map<string, Box>,
    locks: map<string, nat>,
    owner: map<nat, nat>,
    nextLock: nat,
    threads: seq<Thread>,
    log: seq<Effect>,
    cancelled: bool,
    torn: set<string>)

  function BoxOf(s: State, c: string): Box {
    Get(s.boxes, c, Down)
  }

  /** acquireStartLock: the table's lock object, created on first use. */
  function LockFor(locks: map<string, nat>, c: string, nextLock: nat): nat {
    Get(locks, c, nextLock)
  }

  function FirstPc(role: Role): Pc {
    match role
    case Proxy => AcquireProbe
    case WakeAll => AcquireProbe
    case Wake => Acquire
    case Wait => WaitProbe
    case Waiter => Waiting
    case IdleStop => CountIdle
    case ManualStop => TakeTimer
    case StopAll => StopInspect
  }

  datatype Step =
    | Tick(d: nat)
    | Request(role: Role, cfg: Config)
    | Run(i: nat, choice: bool)
    | Fire(id: nat)
    | ArmIdle(cfg: Config)
    | Disappear(names: seq<string>)
    | BoxDies(container: string)
    | BoxFreezes(container: string)
    | CancelRoot
    | SwapTimers
    | HaltTimer(id: nat)

  predicate Enabled(s: State, step: Step) {
    match step
    case Request(role, _) => role != Waiter && role != IdleStop
    case Run(i, choice) =>
      && i < |s.threads|
      && var t := s.threads[i];
      && !Finished(t)
      && ((t.pc.LockProbe? || t.pc.Lock?) ==> t.pc.lock !in s.owner)
      && (choice ==> DockerAccepts(t, BoxOf(s, t.cfg.container)))
    case Fire(id) => T.Enabled(s.table, T.FireStep(id))
    case BoxFreezes(c) => BoxOf(s, c) == Up
    case HaltTimer(id) => T.Enabled(s.table, T.HaltStep(id))
    case _ => true
  }

  predicate Finished(t: Thread) {
    t.pc == Done || t.pc == Cancelled
  }

  function TakeAll(t: T.Table, names: seq<string>): T.Table {
    if names == [] then t else T.Take(TakeAll(t, names[..|names| - 1]), names[|names| - 1])
  }

  /** The lock object a thread holds or is about to lock. */
  function Grip(pc: Pc): Option<nat> {
    if pc.LockProbe? || pc.Lock? then Some(pc.lock) else Crit(pc)
  }

  /** The lock object a thread holds. */
  function Crit(pc: Pc): Option<nat> {
    match pc
    case Probe(l) => Some(l)
    case UnlockProbe(l, _) => Some(l)
    case Inspect(l) => Some(l)
    case CountStart(l, _) => Some(l)
    case LogRequested(l, _) => Some(l)
    case MarkBoot(l, _) => Some(l)
    case Issue(l, _) => Some(l)
    case ClearBoot(l) => Some(l)
    case LogStartError(l) => Some(l)
    case Spawn(l) => Some(l)
    case Unlock(l) => Some(l)
    case _ => None
  }

  /** From the moment a thread has looked up the start lock until it has issued the start. */
  predicate HeadsForStart(pc: Pc) {
    pc.Lock? || Deciding(pc)
  }

  /** From the inspection to the Docker call, with the lock held. */
  predicate Deciding(pc: Pc) {
    pc.Inspect? || pc.CountStart? || pc.LogRequested? || pc.MarkBoot? || pc.Issue?
  }

  /** Some thread is on its way to start container `c`. */
  predicate BeingStarted(threads: seq<Thread>, c: string) {
    exists i | 0 <= i < |threads| :: threads[i].cfg.container == c && HeadsForStart(threads[i].pc)
  }

  function Append<A>(s: seq<A>, x: Option<A>): seq<A> {
    if x.Some? then s + [x.value] else s
  }

  function RunThread(s: State, i: nat, choice: bool): State
    requires i < |s.threads|
  {
    var t := s.threads[i];
    var c := t.cfg.container;
    var lock := LockFor(s.locks, c, s.nextLock);
    var op := LockOpOf(t.pc);
    var threads := Append(s.threads[i := t.(pc := NextPc(t, BoxOf(s, c), lock, s.cancelled, choice))], SpawnOf(t));
    s.(threads := threads,
       torn := if BeingStarted(threads, c) then s.torn else s.torn - {c},
       boxes := s.boxes[c := BoxAfter(t, BoxOf(s, c), choice)],
       log := Append(s.log, EffectOf(t, BoxOf(s, c), choice)),
       locks := if op.GetLock? then s.locks[c := lock] else s.locks,
       nextLock := if op.GetLock? && c !in s.locks then s.nextLock + 1 else s.nextLock,
       owner := match op
                case TakeLock(l) => s.owner[l := i]
                case FreeLock(l) => s.owner - {l}
                case _ => s.owner,
       table := if t.pc.ResetIdle? then T.Reset(s.table, t.cfg)
                else if t.pc.TakeTimer? then T.Take(s.table, c)
                else s.table)
  }

  function Apply(s: State, step: Step): State {
    match step
    case Tick(d) => s.(table := T.Apply(s.table, T.Elapse(d)))
    case Request(role, cfg) => s.(threads := s.threads + [Thread(role, cfg, FirstPc(role))])
    case Run(i, choice) => if i < |s.threads| then RunThread(s, i, choice) else s
    case Fire(id) =>
      if id >= |s.table.heap| then s else
      s.(table := T.Apply(s.table, T.FireStep(id)),
         threads := s.threads + [Thread(IdleStop, s.table.heap[id].cfg, FirstPc(IdleStop))])
    case ArmIdle(cfg) => s.(table := T.Arm(s.table, cfg))
    case Disappear(names) =>
      s.(table := TakeAll(s.table, names),
         locks := s.locks - (set n | n in names),
         torn := s.torn + (set n | n in names && BeingStarted(s.threads, n)))
    case BoxDies(c) =>
      s.(boxes := s.boxes[c := Down], log := if BoxOf(s, c) == Up then s.log + [WentDown(c)] else s.log)
    case BoxFreezes(c) => s.(boxes := s.boxes[c := Frozen], log := s.log + [WentDown(c)])
    case CancelRoot => s.(cancelled := true)
    case SwapTimers => s.(table := T.Apply(s.table, T.SwapStep))
    case HaltTimer(id) => s.(table := T.Apply(s.table, T.HaltStep(id)))
  }

  /** docknap at start-up: containers in any state, no timers, locks or threads yet. */
  function Boot(now: int, boxes: map<string, Box>): State {
    State(T.Start(now), boxes, map[], map[], 0, [], [], false, {})
  }

  function Exec(s: State, steps: seq<Step>): State {
    if steps == [] then s else Apply(Exec(s, steps[..|steps| - 1]), steps[|steps| - 1])
  }

  predicate Legal(s: State, steps: seq<Step>) {
    steps == []
    || (Legal(s, steps[..|steps| - 1]) && Enabled(Exec(s, steps[..|steps| - 1]), steps[|steps| - 1]))
  }

  lemma StepGrows(s: State, step: Step)
    ensures |s.threads| <= |Apply(s, step).threads|
  {
  }

  /** One step: an old thread moves or stays, a new one stands at its first place. */
  lemma ThreadAfter(s: State, step: Step, i: nat)
    requires Enabled(s, step) && i < |Apply(s, step).threads|
    ensures i < |s.threads| ==>
              Apply(s, step).threads[i] ==
              if step.Run? && step.i == i
              then s.threads[i].(pc := NextPc(s.threads[i], BoxOf(s, s.threads[i].cfg.container),
                                              LockFor(s.locks, s.threads[i].cfg.container, s.nextLock), s.cancelled, step.choice))
              else s.threads[i]
    ensures i >= |s.threads| ==> Apply(s, step).threads[i].pc == FirstPc(Apply(s, step).threads[i].role)
  {
  }
}
