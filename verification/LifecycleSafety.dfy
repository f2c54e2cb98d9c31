/** Single-flight starts: the start lock lets docknap start or unpause a container only when it is not
    already running, in every interleaving. */
module LifecycleSafety {
  import opened Tally
  import opened Services
  import opened Lifecycle
  import T = IdleTimers

  /** A thread inside a critical section is the owner of its lock object, and the other way round. */
  ghost predicate OwnersHold(s: State) {
    && (forall i | 0 <= i < |s.threads| && Crit(s.threads[i].pc).Some? ::
          Crit(s.threads[i].pc).value in s.owner && s.owner[Crit(s.threads[i].pc).value] == i)
    && (forall l | l in s.owner :: s.owner[l] < |s.threads| && Crit(s.threads[s.owner[l]].pc) == Some(l))
  }

  /** Lock objects that nobody has seen yet are new. */
  ghost predicate LocksKnown(s: State) {
    && (forall i | 0 <= i < |s.threads| && Grip(s.threads[i].pc).Some? :: Grip(s.threads[i].pc).value < s.nextLock)
    && (forall c | c in s.locks :: s.locks[c] < s.nextLock)
  }

  /** The lock object of a thread that heads for a start is the one the table gives for its container, unless that
      entry was torn out. */
  ghost predicate LocksCurrent(s: State) {
    forall i | 0 <= i < |s.threads| && HeadsForStart(s.threads[i].pc) && s.threads[i].cfg.container !in s.torn ::
      s.threads[i].cfg.container in s.locks && s.locks[s.threads[i].cfg.container] == Grip(s.threads[i].pc).value
  }

  /** The start locks exclude. */
  ghost predicate LocksHold(s: State) {
    OwnersHold(s) && LocksKnown(s) && LocksCurrent(s)
  }

  /** Between the inspection and the Docker call. `paused` is what the inspection saw. */
  predicate Committed(pc: Pc) {
    pc.CountStart? || pc.LogRequested? || pc.MarkBoot? || pc.Issue?
  }

  /** If the thread is committed its container has not come up since the inspection. */
  ghost predicate AsleepFor(s: State, i: nat)
    requires i < |s.threads|
  {
    Committed(s.threads[i].pc) && s.threads[i].cfg.container !in s.torn ==>
      && BoxOf(s, s.threads[i].cfg.container) != Up
      && (!s.threads[i].pc.paused ==> BoxOf(s, s.threads[i].cfg.container) == Down)
  }

  /** A container that a thread has decided to start has not come up since. */
  ghost predicate StillAsleep(s: State) {
    forall i: nat | i < |s.threads| :: AsleepFor(s, i)
  }

  ghost predicate Safe(s: State) {
    LocksHold(s) && StillAsleep(s)
  }

  lemma Exclusive(s: State, i: nat, j: nat)
    requires LocksHold(s) && i < |s.threads| && j < |s.threads|
    requires Deciding(s.threads[i].pc) && Deciding(s.threads[j].pc)
    requires s.threads[i].cfg.container == s.threads[j].cfg.container && s.threads[i].cfg.container !in s.torn
    ensures i == j
  {
  }

  /** What a step does to the lock object in hand. */
  lemma GripNext(t: Thread, box: Box, lock: nat, cancelled: bool, choice: bool)
    ensures var pc := NextPc(t, box, lock, cancelled, choice);
            match LockOpOf(t.pc)
            case KeepLock => Crit(pc) == Crit(t.pc) && Grip(pc) == Grip(t.pc) && (HeadsForStart(pc) ==> HeadsForStart(t.pc))
            case GetLock => Crit(t.pc) == Crit(pc) == None && Grip(pc) == Some(lock)
            case TakeLock(l) =>
              && Crit(t.pc) == None && Grip(t.pc) == Crit(pc) == Grip(pc) == Some(l)
              && (HeadsForStart(pc) ==> HeadsForStart(t.pc))
            case FreeLock(l) => Crit(t.pc) == Some(l) && Grip(pc) == Crit(pc) == None
  {
  }

  /** One thread moves to `pc` and performs `op` on the locks. */
  ghost predicate Moves(s: State, s': State, i: nat, pc: Pc, op: LockOp) {
    && i < |s.threads|
    && var c := s.threads[i].cfg.container;
    && s'.torn == (if BeingStarted(s'.threads, c) then s.torn else s.torn - {c})
    && |s.threads| <= |s'.threads|
    && s'.threads[i] == s.threads[i].(pc := pc)
    && (forall j | 0 <= j < |s.threads| && j != i :: s'.threads[j] == s.threads[j])
    && (forall j | |s.threads| <= j < |s'.threads| :: Grip(s'.threads[j].pc) == None && Crit(s'.threads[j].pc) == None)
    && s'.locks == (if op.GetLock? then s.locks[c := LockFor(s.locks, c, s.nextLock)] else s.locks)
    && s'.nextLock == (if op.GetLock? && c !in s.locks then s.nextLock + 1 else s.nextLock)
    && s'.owner == match op
                   case TakeLock(l) => s.owner[l := i]
                   case FreeLock(l) => s.owner - {l}
                   case _ => s.owner
  }

  /** `pc` is where a thread that performs `op` can go. */
  ghost predicate Grips(s: State, i: nat, pc: Pc, op: LockOp)
    requires i < |s.threads|
  {
    var was := s.threads[i].pc;
    match op
    case KeepLock => Crit(pc) == Crit(was) && Grip(pc) == Grip(was) && (HeadsForStart(pc) ==> HeadsForStart(was))
    case GetLock => Crit(was) == Crit(pc) == None && Grip(pc) == Some(LockFor(s.locks, s.threads[i].cfg.container, s.nextLock))
    case TakeLock(l) =>
      && Crit(was) == None && Grip(was) == Crit(pc) == Grip(pc) == Some(l) && l !in s.owner
      && (HeadsForStart(pc) ==> HeadsForStart(was))
    case FreeLock(l) => Crit(was) == Some(l) && Grip(pc) == Crit(pc) == None
  }

  lemma KeepKeepsOwners(s: State, s': State, i: nat, pc: Pc, op: LockOp)
    requires OwnersHold(s) && Moves(s, s', i, pc, op) && Grips(s, i, pc, op) && (op.KeepLock? || op.GetLock?)
    ensures OwnersHold(s')
  {
  }

  lemma TakeKeepsOwners(s: State, s': State, i: nat, pc: Pc, op: LockOp)
    requires OwnersHold(s) && Moves(s, s', i, pc, op) && Grips(s, i, pc, op) && op.TakeLock?
    ensures OwnersHold(s')
  {
  }

  lemma FreeKeepsOwners(s: State, s': State, i: nat, pc: Pc, op: LockOp)
    requires OwnersHold(s) && Moves(s, s', i, pc, op) && Grips(s, i, pc, op) && op.FreeLock?
    ensures OwnersHold(s')
  {
  }

  lemma MovesKeepKnown(s: State, s': State, i: nat, pc: Pc, op: LockOp)
    requires LocksKnown(s) && Moves(s, s', i, pc, op) && Grips(s, i, pc, op)
    ensures LocksKnown(s')
  {
  }

  /** An entry stays torn as long as somebody heads for a start, so the others cannot go by a stale one. */
  lemma MovesKeepCurrent(s: State, s': State, i: nat, pc: Pc, op: LockOp)
    requires LocksCurrent(s) && Moves(s, s', i, pc, op) && Grips(s, i, pc, op)
    ensures LocksCurrent(s')
  {
  }

  lemma MovesKeepLocks(s: State, s': State, i: nat, pc: Pc, op: LockOp)
    requires LocksHold(s) && Moves(s, s', i, pc, op) && Grips(s, i, pc, op)
    ensures LocksHold(s')
  {
    MovesKeepKnown(s, s', i, pc, op);
    MovesKeepCurrent(s, s', i, pc, op);
    match op
    case TakeLock(_) => TakeKeepsOwners(s, s', i, pc, op);
    case FreeLock(_) => FreeKeepsOwners(s, s', i, pc, op);
    case _ => KeepKeepsOwners(s, s', i, pc, op);
  }

  lemma ThreadMoves(s: State, i: nat, choice: bool)
    requires i < |s.threads|
    ensures var t := s.threads[i];
            var c := t.cfg.container;
            var pc := NextPc(t, BoxOf(s, c), LockFor(s.locks, c, s.nextLock), s.cancelled, choice);
            Moves(s, RunThread(s, i, choice), i, pc, LockOpOf(t.pc))
  {
  }

  lemma {:induction false} ThreadKeepsLocks(s: State, i: nat, choice: bool)
    requires LocksHold(s) && Enabled(s, Run(i, choice))
    ensures LocksHold(RunThread(s, i, choice))
  {
    var t := s.threads[i];
    var c := t.cfg.container;
    var lock := LockFor(s.locks, c, s.nextLock);
    var pc := NextPc(t, BoxOf(s, c), lock, s.cancelled, choice);
    GripNext(t, BoxOf(s, c), lock, s.cancelled, choice);
    ThreadMoves(s, i, choice);
    MovesKeepLocks(s, RunThread(s, i, choice), i, pc, LockOpOf(t.pc));
  }

  /** A thread commits itself only to a container that the inspection saw asleep, and holds the lock all the way. */
  lemma CommitNext(t: Thread, box: Box, lock: nat, cancelled: bool, choice: bool)
    requires Committed(NextPc(t, box, lock, cancelled, choice))
    ensures var pc := NextPc(t, box, lock, cancelled, choice);
            && Crit(pc) == Crit(t.pc) && Crit(pc).Some?
            && BoxAfter(t, box, choice) == box
            && (if Committed(t.pc) then pc.paused == t.pc.paused else box != Up && pc.paused == (box == Frozen))
  {
  }

  /** Only a committed thread brings a container up. */
  lemma UpNext(t: Thread, box: Box, choice: bool)
    requires BoxAfter(t, box, choice) != box && BoxAfter(t, box, choice) != Down
    ensures (Committed(t.pc) && Crit(t.pc).Some?) || (t.pc.StopCall? && BoxAfter(t, box, choice) == Frozen)
  {
  }

  /** While a thread is committed nobody else is, on the same container. */
  lemma OnlyCommitted(s: State, i: nat, j: nat)
    requires LocksHold(s) && i < |s.threads| && j < |s.threads| && i != j && Committed(s.threads[j].pc)
    requires s.threads[i].cfg.container == s.threads[j].cfg.container && s.threads[i].cfg.container !in s.torn
    ensures !Committed(s.threads[i].pc)
  {
  }

  lemma OwnAsleep(s: State, i: nat, choice: bool)
    requires Safe(s) && Enabled(s, Run(i, choice))
    ensures AsleepFor(RunThread(s, i, choice), i)
  {
    var t := s.threads[i];
    var lock := LockFor(s.locks, t.cfg.container, s.nextLock);
    ThreadMoves(s, i, choice);
    assert AsleepFor(s, i);
    if Committed(NextPc(t, BoxOf(s, t.cfg.container), lock, s.cancelled, choice)) {
      CommitNext(t, BoxOf(s, t.cfg.container), lock, s.cancelled, choice);
      assert BoxOf(RunThread(s, i, choice), t.cfg.container) == BoxAfter(t, BoxOf(s, t.cfg.container), choice);
    }
  }

  lemma OtherAsleep(s: State, i: nat, j: nat, choice: bool)
    requires Safe(s) && Enabled(s, Run(i, choice)) && j < |s.threads| && j != i
    ensures j < |RunThread(s, i, choice).threads| && AsleepFor(RunThread(s, i, choice), j)
  {
    var t := s.threads[i];
    var box := BoxOf(s, t.cfg.container);
    ThreadMoves(s, i, choice);
    assert AsleepFor(s, j);
    assert forall c :: BoxOf(RunThread(s, i, choice), c) == if c == t.cfg.container then BoxAfter(t, box, choice) else BoxOf(s, c);
    if Committed(s.threads[j].pc) && s.threads[j].cfg.container == t.cfg.container && t.cfg.container !in s.torn {
      OnlyCommitted(s, i, j);
      if BoxAfter(t, box, choice) != box && BoxAfter(t, box, choice) != Down {
        UpNext(t, box, choice);
      }
    }
  }

  lemma {:induction false} ThreadKeepsAsleep(s: State, i: nat, choice: bool)
    requires Safe(s) && Enabled(s, Run(i, choice))
    ensures StillAsleep(RunThread(s, i, choice))
  {
    var s' := RunThread(s, i, choice);
    ThreadMoves(s, i, choice);
    forall j: nat | j < |s'.threads|
      ensures AsleepFor(s', j)
    {
      if j == i {
        OwnAsleep(s, i, choice);
      } else if j < |s.threads| {
        OtherAsleep(s, i, j, choice);
      }
    }
  }

  lemma DisappearKeepsLocks(s: State, names: seq<string>)
    requires LocksHold(s)
    ensures LocksHold(Apply(s, Disappear(names)))
  {
  }

  lemma NewThreadKeepsLocks(s: State, s': State, t: Thread)
    requires LocksHold(s) && Grip(t.pc) == None && Crit(t.pc) == None
    requires s'.threads == s.threads + [t]
    requires s'.locks == s.locks && s'.owner == s.owner && s'.nextLock == s.nextLock && s'.torn == s.torn
    ensures LocksHold(s')
  {
  }

  lemma SameLocksHold(s: State, s': State)
    requires LocksHold(s) && s'.threads == s.threads
    requires s'.locks == s.locks && s'.owner == s.owner && s'.nextLock == s.nextLock && s'.torn == s.torn
    ensures LocksHold(s')
  {
  }

  lemma EnvironmentKeepsLocks(s: State, step: Step)
    requires LocksHold(s) && Enabled(s, step) && !step.Run?
    ensures LocksHold(Apply(s, step))
  {
    match step
    case Disappear(names) => DisappearKeepsLocks(s, names);
    case Request(role, cfg) => NewThreadKeepsLocks(s, Apply(s, step), Thread(role, cfg, FirstPc(role)));
    case Fire(id) => NewThreadKeepsLocks(s, Apply(s, step), Thread(IdleStop, s.table.heap[id].cfg, FirstPc(IdleStop)));
    case _ => SameLocksHold(s, Apply(s, step));
  }

  lemma EnvironmentKeepsAsleep(s: State, step: Step)
    requires StillAsleep(s) && Enabled(s, step) && !step.Run?
    ensures StillAsleep(Apply(s, step))
  {
    var s' := Apply(s, step);
    forall i: nat | i < |s'.threads|
      ensures AsleepFor(s', i)
    {
      if i < |s.threads| {
        assert AsleepFor(s, i) && s'.threads[i] == s.threads[i];
      }
    }
  }

  lemma SafeStep(s: State, step: Step)
    requires Safe(s) && Enabled(s, step)
    ensures Safe(Apply(s, step))
  {
    if step.Run? {
      ThreadKeepsLocks(s, step.i, step.choice);
      ThreadKeepsAsleep(s, step.i, step.choice);
    } else {
      EnvironmentKeepsLocks(s, step);
      EnvironmentKeepsAsleep(s, step);
    }
  }

  lemma {:induction false} SafeOn(s: State, more: seq<Step>)
    requires Safe(s) && Legal(s, more)
    ensures Safe(Exec(s, more))
  {
    if more != [] {
      SafeOn(s, more[..|more| - 1]);
      SafeStep(Exec(s, more[..|more| - 1]), more[|more| - 1]);
    }
  }

  lemma {:induction false} SafeRun(now: int, boxes: map<string, Box>, steps: seq<Step>)
    requires Legal(Boot(now, boxes), steps)
    ensures Safe(Exec(Boot(now, boxes), steps))
  {
    SafeOn(Boot(now, boxes), steps);
  }

  /** Two threads never hold start locks of the same container between inspection and start at the same time. */
  lemma {:induction false} Exclusion(now: int, boxes: map<string, Box>, steps: seq<Step>, i: nat, j: nat)
    requires Legal(Boot(now, boxes), steps)
    requires var s := Exec(Boot(now, boxes), steps);
             && i < |s.threads| && j < |s.threads| && Deciding(s.threads[i].pc) && Deciding(s.threads[j].pc)
             && s.threads[i].cfg.container == s.threads[j].cfg.container && s.threads[i].cfg.container !in s.torn
    ensures i == j
  {
    SafeRun(now, boxes, steps);
    Exclusive(Exec(Boot(now, boxes), steps), i, j);
  }

  /** Single flight, over every run: unless its lock entry has been deleted under threads that head for its start, and
      some still do, docknap issues a start only on a stopped container and an unpause only on one that is not
      running, and at most one thread is anywhere between the inspection and the start. */
  lemma {:induction false} SingleFlight(now: int, boxes: map<string, Box>, steps: seq<Step>, i: nat, j: nat)
    requires Legal(Boot(now, boxes), steps)
    requires var s := Exec(Boot(now, boxes), steps);
             i < |s.threads| && s.threads[i].pc.Issue? && s.threads[i].cfg.container !in s.torn
    ensures var s := Exec(Boot(now, boxes), steps);
            && BoxOf(s, s.threads[i].cfg.container) != Up
            && (!s.threads[i].pc.paused ==> BoxOf(s, s.threads[i].cfg.container) == Down)
            && ((j < |s.threads| && s.threads[j].cfg.container == s.threads[i].cfg.container && Deciding(s.threads[j].pc))
                ==> j == i)
  {
    var s := Exec(Boot(now, boxes), steps);
    SafeRun(now, boxes, steps);
    assert AsleepFor(s, i);
    if j < |s.threads| && s.threads[j].cfg.container == s.threads[i].cfg.container && Deciding(s.threads[j].pc) {
      Exclusive(s, i, j);
    }
  }

  /** The starts that changed something are the departures from running, plus one if the container runs now, minus one
      if it ran at the beginning. */
  ghost predicate FlowHolds(s: State, boxes: map<string, Box>, c: string) {
    Count(s.log, WentUp(c, false)) - Count(s.log, WentDown(c)) ==
    (if BoxOf(s, c) == Up then 1 else 0) - (if Get(boxes, c, Down) == Up then 1 else 0)
  }

  /** What an effect adds to the balance of starts and departures. */
  function Flow(e: Option<Effect>, c: string): int {
    if e == Some(WentUp(c, false)) then 1 else if e == Some(WentDown(c)) then -1 else 0
  }

  lemma FlowOf(log: seq<Effect>, e: Option<Effect>, c: string)
    ensures var more := Append(log, e);
            Count(more, WentUp(c, false)) - Count(more, WentDown(c)) ==
            Count(log, WentUp(c, false)) - Count(log, WentDown(c)) + Flow(e, c)
  {
  }

  /** A thread that changes a container to or from running logs it. */
  lemma FlowStep(t: Thread, box: Box, choice: bool)
    ensures Flow(EffectOf(t, box, choice), t.cfg.container) ==
            (if BoxAfter(t, box, choice) == Up then 1 else 0) - (if box == Up then 1 else 0)
  {
  }

  lemma FlowElsewhere(t: Thread, box: Box, choice: bool, c: string)
    requires c != t.cfg.container
    ensures Flow(EffectOf(t, box, choice), c) == 0
  {
  }

  lemma FlowThread(s: State, i: nat, choice: bool, boxes: map<string, Box>, c: string)
    requires FlowHolds(s, boxes, c) && Enabled(s, Run(i, choice))
    ensures FlowHolds(RunThread(s, i, choice), boxes, c)
  {
    var t := s.threads[i];
    var box := BoxOf(s, t.cfg.container);
    var s' := RunThread(s, i, choice);
    assert s'.log == Append(s.log, EffectOf(t, box, choice));
    assert BoxOf(s', c) == if c == t.cfg.container then BoxAfter(t, box, choice) else BoxOf(s, c);
    FlowOf(s.log, EffectOf(t, box, choice), c);
    if c == t.cfg.container {
      FlowStep(t, box, choice);
    } else {
      FlowElsewhere(t, box, choice, c);
    }
  }

  lemma FlowEnvironment(s: State, step: Step, boxes: map<string, Box>, c: string)
    requires FlowHolds(s, boxes, c) && Enabled(s, step) && !step.Run?
    ensures FlowHolds(Apply(s, step), boxes, c)
  {
    if step.BoxDies? || step.BoxFreezes? {
      FlowOf(s.log, Some(WentDown(step.container)), c);
    }
  }

  /** The container was never torn in the run. */
  ghost predicate NeverTorn(s: State, steps: seq<Step>, c: string) {
    forall n: nat | n <= |steps| :: c !in Exec(s, steps[..n]).torn
  }

  /** A start is wasted on a running container only while the container is torn. */
  lemma WasteStep(s: State, step: Step, c: string)
    requires Safe(s) && Enabled(s, step) && c !in s.torn
    ensures Count(Apply(s, step).log, WentUp(c, true)) == Count(s.log, WentUp(c, true))
  {
    if step.Run? {
      var t := s.threads[step.i];
      assert AsleepFor(s, step.i);
      assert EffectOf(t, BoxOf(s, t.cfg.container), step.choice) != Some(WentUp(c, true));
    }
  }

  /** Over every run: the successful starts of a container are its departures from running, plus one if it runs now,
      minus one if it ran at the beginning, plus the starts wasted on it; and none is wasted as long as its lock entry
      is not deleted under a thread that heads for its start. */
  lemma {:induction false} StartsMatchDepartures(now: int, boxes: map<string, Box>, steps: seq<Step>, c: string)
    requires Legal(Boot(now, boxes), steps)
    ensures FlowHolds(Exec(Boot(now, boxes), steps), boxes, c)
    ensures NeverTorn(Boot(now, boxes), steps, c) ==> Count(Exec(Boot(now, boxes), steps).log, WentUp(c, true)) == 0
  {
    if steps != [] {
      var before, step := steps[..|steps| - 1], steps[|steps| - 1];
      var s := Exec(Boot(now, boxes), before);
      StartsMatchDepartures(now, boxes, before, c);
      SafeRun(now, boxes, before);
      if step.Run? {
        FlowThread(s, step.i, step.choice, boxes, c);
      } else {
        FlowEnvironment(s, step, boxes, c);
      }
      if NeverTorn(Boot(now, boxes), steps, c) {
        NeverTornBefore(Boot(now, boxes), steps, c);
        WasteStep(s, step, c);
      }
    }
  }

  lemma NeverTornBefore(s: State, steps: seq<Step>, c: string)
    requires steps != [] && NeverTorn(s, steps, c)
    ensures NeverTorn(s, steps[..|steps| - 1], c) && c !in Exec(s, steps[..|steps| - 1]).torn
  {
    var before := steps[..|steps| - 1];
    forall n: nat | n <= |before|
      ensures c !in Exec(s, before[..n]).torn
    {
      assert before[..n] == steps[..n];
    }
    assert before[..|before|] == before;
  }

  // When the deletion of a lock entry does harm

  /** No container disappears. */
  ghost predicate Calm(steps: seq<Step>) {
    forall step | step in steps :: !step.Disappear?
  }

  /** A thread is about to issue a start on a running container. */
  ghost predicate Wasteful(s: State, c: string) {
    BoxOf(s, c) == Up && exists i: nat :: i < |s.threads| && s.threads[i].cfg.container == c && s.threads[i].pc.Issue?
  }

  /** It can come to that without any further disappearance. */
  ghost predicate CanWaste(s: State, c: string) {
    exists more :: Legal(s, more) && Calm(more) && Wasteful(Exec(s, more), c)
  }

  lemma WholeIsNotWasteful(s: State, c: string)
    requires Safe(s) && c !in s.torn
    ensures !Wasteful(s, c)
  {
    forall i: nat | i < |s.threads| && s.threads[i].cfg.container == c && s.threads[i].pc.Issue?
      ensures BoxOf(s, c) != Up
    {
      assert AsleepFor(s, i);
    }
  }

  lemma CalmStep(s: State, step: Step, c: string)
    requires c !in s.torn && !step.Disappear?
    ensures c !in Apply(s, step).torn
  {
  }

  lemma {:induction false} CalmStaysWhole(s: State, more: seq<Step>, c: string)
    requires c !in s.torn && Legal(s, more) && Calm(more)
    ensures c !in Exec(s, more).torn
  {
    if more != [] {
      CalmStaysWhole(s, more[..|more| - 1], c);
      assert more[|more| - 1] in more;
      CalmStep(Exec(s, more[..|more| - 1]), more[|more| - 1], c);
    }
  }

  /** Longer and longer runs from the same start. */
  lemma Play(s0: State, steps: seq<Step>, s: State, step: Step) returns (longer: seq<Step>, s': State)
    requires Legal(s0, steps) && Exec(s0, steps) == s && Enabled(s, step)
    ensures Legal(s0, longer) && Exec(s0, longer) == s' == Apply(s, step)
    ensures Calm(steps) && !step.Disappear? ==> Calm(longer)
  {
    longer := steps + [step];
    assert longer[..|steps|] == steps;
    s' := Apply(s, step);
  }

  /** A wake request on a container without a lock entry: a new lock object, the lock, the decision. */
  lemma RequestStep(s: State, cfg: Config)
    requires cfg.container !in s.locks
    ensures var s1, i := Apply(s, Request(Wake, cfg)), |s.threads|;
            var s2 := RunThread(s1, i, true);
            && Enabled(s1, Run(i, true))
            && s2.threads == s.threads + [Thread(Wake, cfg, Lock(s.nextLock))]
            && s2.owner == s.owner && s2.nextLock == s.nextLock + 1
            && BoxOf(s2, cfg.container) == BoxOf(s, cfg.container)
  {
  }

  lemma DecideSteps(s: State, i: nat)
    requires i < |s.threads| && s.threads[i].pc.Lock? && s.threads[i].pc.lock !in s.owner
    requires BoxOf(s, s.threads[i].cfg.container) == Down
    ensures var t, s1 := s.threads[i], RunThread(s, i, true);
            var s2 := RunThread(s1, i, true);
            && Enabled(s, Run(i, true)) && Enabled(s1, Run(i, true))
            && s2.threads == s.threads[i := t.(pc := CountStart(t.pc.lock, false))]
            && s2.owner == s.owner[t.pc.lock := i] && s2.nextLock == s.nextLock
            && BoxOf(s2, t.cfg.container) == Down
  {
  }

  lemma PlayRequest(s0: State, steps: seq<Step>, s: State, cfg: Config) returns (longer: seq<Step>, s': State)
    requires Legal(s0, steps) && Exec(s0, steps) == s && cfg.container !in s.locks
    ensures Legal(s0, longer) && Exec(s0, longer) == s' && (Calm(steps) ==> Calm(longer))
    ensures s'.threads == s.threads + [Thread(Wake, cfg, Lock(s.nextLock))]
    ensures s'.owner == s.owner && s'.nextLock == s.nextLock + 1
    ensures BoxOf(s', cfg.container) == BoxOf(s, cfg.container)
  {
    RequestStep(s, cfg);
    longer, s' := Play(s0, steps, s, Request(Wake, cfg));
    longer, s' := Play(s0, longer, s', Run(|s.threads|, true));
  }

  lemma PlayToCommit(s0: State, steps: seq<Step>, s: State, cfg: Config) returns (longer: seq<Step>, s': State)
    requires Legal(s0, steps) && Exec(s0, steps) == s
    requires cfg.container !in s.locks && s.nextLock !in s.owner && BoxOf(s, cfg.container) == Down
    ensures Legal(s0, longer) && Exec(s0, longer) == s' && (Calm(steps) ==> Calm(longer))
    ensures s'.threads == s.threads + [Thread(Wake, cfg, CountStart(s.nextLock, false))]
    ensures s'.owner == s.owner[s.nextLock := |s.threads|] && s'.nextLock == s.nextLock + 1
    ensures BoxOf(s', cfg.container) == Down
  {
    longer, s' := PlayRequest(s0, steps, s, cfg);
    DecideSteps(s', |s.threads|);
    longer, s' := Play(s0, longer, s', Run(|s.threads|, true));
    longer, s' := Play(s0, longer, s', Run(|s.threads|, true));
  }

  /** How many steps a committed thread is away from the Docker call. */
  function ToIssue(pc: Pc): nat {
    if pc.CountStart? then 3 else if pc.LogRequested? then 2 else if pc.MarkBoot? then 1 else 0
  }

  /** From the decision to the Docker call, one step of a committed thread. */
  lemma CommittedStep(s: State, i: nat)
    requires i < |s.threads| && Committed(s.threads[i].pc) && !s.threads[i].pc.Issue?
    ensures Enabled(s, Run(i, true))
    ensures var t, s' := s.threads[i], RunThread(s, i, true);
            && |s'.threads| == |s.threads| && Committed(s'.threads[i].pc)
            && s'.threads == s.threads[i := t.(pc := s'.threads[i].pc)]
            && s'.threads[i].pc.paused == t.pc.paused && ToIssue(s'.threads[i].pc) < ToIssue(t.pc)
            && BoxOf(s', t.cfg.container) == BoxOf(s, t.cfg.container)
  {
  }

  lemma {:induction false} PlayToIssue(s0: State, steps: seq<Step>, s: State, i: nat)
    returns (longer: seq<Step>, s': State)
    requires Legal(s0, steps) && Exec(s0, steps) == s && i < |s.threads| && Committed(s.threads[i].pc)
    ensures Legal(s0, longer) && Exec(s0, longer) == s' && (Calm(steps) ==> Calm(longer))
    ensures |s'.threads| == |s.threads| && s'.threads[i].pc.Issue? && s'.threads[i].pc.paused == s.threads[i].pc.paused
    ensures s'.threads == s.threads[i := s.threads[i].(pc := s'.threads[i].pc)]
    ensures BoxOf(s', s.threads[i].cfg.container) == BoxOf(s, s.threads[i].cfg.container)
    decreases ToIssue(s.threads[i].pc)
  {
    longer, s' := steps, s;
    if !s.threads[i].pc.Issue? {
      CommittedStep(s, i);
      longer, s' := Play(s0, steps, s, Run(i, true));
      longer, s' := PlayToIssue(s0, longer, s', i);
    }
  }

  lemma PlayStart(s0: State, steps: seq<Step>, s: State, i: nat) returns (longer: seq<Step>, s': State)
    requires Legal(s0, steps) && Exec(s0, steps) == s
    requires i < |s.threads| && s.threads[i].pc.Issue? && !s.threads[i].pc.paused
    requires BoxOf(s, s.threads[i].cfg.container) == Down
    ensures Legal(s0, longer) && Exec(s0, longer) == s' && (Calm(steps) ==> Calm(longer))
    ensures |s'.threads| == |s.threads| && BoxOf(s', s.threads[i].cfg.container) == Up
    ensures forall j | 0 <= j < |s.threads| && j != i :: s'.threads[j] == s.threads[j]
  {
    longer, s' := Play(s0, steps, s, Run(i, true));
  }

  lemma PlayDisappear(s0: State, steps: seq<Step>, s: State, c: string) returns (longer: seq<Step>, s': State)
    requires Legal(s0, steps) && Exec(s0, steps) == s
    ensures Legal(s0, longer) && Exec(s0, longer) == s'
    ensures s'.threads == s.threads && s'.owner == s.owner && s'.nextLock == s.nextLock && s'.boxes == s.boxes
    ensures c !in s'.locks
  {
    longer, s' := Play(s0, steps, s, Disappear([c]));
  }

  /** How many steps a thread needs to give its lock back if every Docker call and probe fails. */
  function ToUnlock(pc: Pc): nat {
    match pc
    case Probe(_) => 1
    case Spawn(_) => 1
    case Inspect(_) => 1
    case LogStartError(_) => 1
    case ClearBoot(_) => 2
    case Issue(_, _) => 3
    case MarkBoot(_, _) => 4
    case LogRequested(_, _) => 5
    case CountStart(_, _) => 6
    case _ => 0
  }

  lemma UnlockStep(s: State, j: nat)
    requires j < |s.threads| && Crit(s.threads[j].pc).Some?
    ensures Enabled(s, Run(j, false))
    ensures var pc, s' := s.threads[j].pc, RunThread(s, j, false);
            && s'.locks == s.locks && |s'.threads| >= |s.threads|
            && (forall k | 0 <= k < |s.threads| && k != j :: s'.threads[k] == s.threads[k])
            && if ToUnlock(pc) == 0 then Crit(pc).value !in s'.owner
               else Crit(s'.threads[j].pc) == Crit(pc) && ToUnlock(s'.threads[j].pc) < ToUnlock(pc)
  {
  }

  /** A thread that holds a lock object can be run until it has given it back. */
  lemma {:induction false} PlayOut(s0: State, steps: seq<Step>, s: State, j: nat) returns (longer: seq<Step>, s': State)
    requires Legal(s0, steps) && Exec(s0, steps) == s && j < |s.threads| && Crit(s.threads[j].pc).Some?
    ensures Legal(s0, longer) && Exec(s0, longer) == s' && (Calm(steps) ==> Calm(longer))
    ensures Crit(s.threads[j].pc).value !in s'.owner && s'.locks == s.locks && |s'.threads| >= |s.threads|
    ensures forall k | 0 <= k < |s.threads| && k != j :: s'.threads[k] == s.threads[k]
    decreases ToUnlock(s.threads[j].pc)
  {
    UnlockStep(s, j);
    longer, s' := Play(s0, steps, s, Run(j, false));
    if ToUnlock(s.threads[j].pc) > 0 {
      longer, s' := PlayOut(s0, longer, s', j);
    }
  }

  /** A thread that waits for its lock object gets it in the end. */
  lemma PlayLock(s: State, i: nat) returns (more: seq<Step>, s': State)
    requires LocksHold(s) && i < |s.threads| && s.threads[i].pc.Lock?
    ensures Legal(s, more) && Calm(more) && Exec(s, more) == s'
    ensures s'.locks == s.locks && i < |s'.threads|
    ensures s'.threads[i] == s.threads[i].(pc := Inspect(s.threads[i].pc.lock))
  {
    more, s' := [], s;
    var lock := s.threads[i].pc.lock;
    if lock in s.owner {
      more, s' := PlayOut(s, more, s', s.owner[lock]);
    }
    more, s' := Play(s, more, s', Run(i, true));
  }

  /** A thread with the lock finds the container down and decides to start it. */
  lemma PlayDecision(s0: State, steps: seq<Step>, s: State, i: nat) returns (longer: seq<Step>, s': State)
    requires Legal(s0, steps) && Exec(s0, steps) == s && Calm(steps) && i < |s.threads| && Deciding(s.threads[i].pc)
    ensures Legal(s0, longer) && Exec(s0, longer) == s' && Calm(longer)
    ensures |s'.threads| == |s.threads| && s'.locks == s.locks
    ensures Committed(s'.threads[i].pc) && s'.threads[i].cfg == s.threads[i].cfg
    ensures BoxOf(s', s.threads[i].cfg.container) == Down
  {
    longer, s' := Play(s0, steps, s, BoxDies(s.threads[i].cfg.container));
    if s.threads[i].pc.Inspect? {
      longer, s' := Play(s0, longer, s', Run(i, true));
    }
  }

  /** Meanwhile a second request, for which there is a new lock object, starts the container. */
  lemma PlaySecondStart(s0: State, steps: seq<Step>, s: State, i: nat) returns (longer: seq<Step>, s': State)
    requires Legal(s0, steps) && Exec(s0, steps) == s && Calm(steps) && i < |s.threads| && Committed(s.threads[i].pc)
    requires var c := s.threads[i].cfg.container; c !in s.locks && s.nextLock !in s.owner && BoxOf(s, c) == Down
    ensures Legal(s0, longer) && Exec(s0, longer) == s' && Calm(longer)
    ensures i < |s'.threads| && s'.threads[i] == s.threads[i] && BoxOf(s', s.threads[i].cfg.container) == Up
  {
    longer, s' := PlayToCommit(s0, steps, s, s.threads[i].cfg);
    longer, s' := PlayToIssue(s0, longer, s', |s.threads|);
    longer, s' := PlayStart(s0, longer, s', |s.threads|);
  }

  /** From a state without a lock entry for its container, a thread that heads for its start can be made to waste it. */
  lemma {:induction false} PlayWaste(s: State, c: string, i: nat)
    requires Safe(s) && c !in s.locks
    requires i < |s.threads| && s.threads[i].cfg.container == c && HeadsForStart(s.threads[i].pc)
    ensures CanWaste(s, c)
  {
    var more: seq<Step>, s' := [], s;
    if s.threads[i].pc.Lock? {
      more, s' := PlayLock(s, i);
    }
    more, s' := PlayDecision(s, more, s', i);
    SafeOn(s, more);
    more, s' := PlaySecondStart(s, more, s', i);
    more, s' := PlayToIssue(s, more, s', i);
    assert Wasteful(s', c);
  }

  /** Exactly when a disappearance breaks single flight: in a reachable state with whole lock entries, deleting the entry of
      a container lets some run issue a start on it while it is running if and only if, at that moment, a thread heads
      for its start. Without the deletion there is no such run. */
  lemma {:induction false} DeletionIsHarmful(now: int, boxes: map<string, Box>, steps: seq<Step>, names: seq<string>, c: string)
    requires Legal(Boot(now, boxes), steps) && c !in Exec(Boot(now, boxes), steps).torn && c in names
    ensures var s := Exec(Boot(now, boxes), steps);
            && (CanWaste(Apply(s, Disappear(names)), c) <==> BeingStarted(s.threads, c))
            && !CanWaste(s, c)
  {
    var s := Exec(Boot(now, boxes), steps);
    var s' := Apply(s, Disappear(names));
    SafeRun(now, boxes, steps);
    SafeStep(s, Disappear(names));
    NoWaste(s, c);
    if BeingStarted(s.threads, c) {
      var i: nat :| i < |s.threads| && s.threads[i].cfg.container == c && HeadsForStart(s.threads[i].pc);
      PlayWaste(s', c, i);
    } else {
      NoWaste(s', c);
    }
  }

  lemma NoWaste(s: State, c: string)
    requires Safe(s) && c !in s.torn
    ensures !CanWaste(s, c)
  {
    forall more | Legal(s, more) && Calm(more)
      ensures !Wasteful(Exec(s, more), c)
    {
      SafeOn(s, more);
      CalmStaysWhole(s, more, c);
      WholeIsNotWasteful(Exec(s, more), c);
    }
  }

  /** Such a run from the start: when a sync deletes the lock entry of a container between the inspection and the
      start, a second request gets a new lock object, and the first one goes on to start a running container. */
  lemma DeletedLockBreaksSingleFlight(cfg: Config) returns (steps: seq<Step>, s: State)
    requires cfg.strategy == StopStrategy
    ensures Legal(Boot(0, map[]), steps) && Exec(Boot(0, map[]), steps) == s
    ensures 0 < |s.threads| && s.threads[0].cfg == cfg && s.threads[0].pc.Issue?
    ensures BoxOf(s, cfg.container) == Up
  {
    var s0 := Boot(0, map[]);
    steps, s := PlayToCommit(s0, [], s0, cfg);
    steps, s := PlayDisappear(s0, steps, s, cfg.container);
    steps, s := PlayToCommit(s0, steps, s, cfg);
    steps, s := PlayToIssue(s0, steps, s, 1);
    steps, s := PlayStart(s0, steps, s, 1);
    steps, s := PlayToIssue(s0, steps, s, 0);
  }

  /** No deadlock among the start locks: in every reachable state with an unfinished thread, some thread can step. */
  lemma {:induction false} SomeThreadSteps(now: int, boxes: map<string, Box>, steps: seq<Step>, i: nat) returns (j: nat)
    requires Legal(Boot(now, boxes), steps)
    requires var s := Exec(Boot(now, boxes), steps); i < |s.threads| && !Finished(s.threads[i])
    ensures Enabled(Exec(Boot(now, boxes), steps), Run(j, false))
  {
    SafeRun(now, boxes, steps);
    var s := Exec(Boot(now, boxes), steps);
    var pc := s.threads[i].pc;
    j := if (pc.LockProbe? || pc.Lock?) && pc.lock in s.owner then s.owner[pc.lock] else i;
  }
}
