/** Conservation laws of the lifecycle: what the counters, histograms and events add up to in every run.

    A law pairs a weight on logged effects with a weight on threads. If every single step of a thread
    changes both by the same amount, the two sums agree in every reachable state. */
module LifecycleAccounting {
  import opened Tally
  import opened Services
  import opened Lifecycle

  predicate Starts(role: Role) {
    role == Proxy || role == WakeAll || role == Wake || role == Wait
  }

  predicate Stops(role: Role) {
    role == IdleStop || role == ManualStop || role == StopAll
  }

  /** Each kind of thread stays within its own program. */
  predicate Routed(t: Thread) {
    match t.pc
    case WaitProbe => t.role == Wait
    case WaitMark => t.role == Wait
    case AcquireProbe => t.role == Proxy || t.role == WakeAll
    case LockProbe(_) => t.role == Proxy || t.role == WakeAll
    case Probe(_) => t.role == Proxy || t.role == WakeAll
    case UnlockProbe(_, _) => t.role == Proxy || t.role == WakeAll
    case ResetIdle => t.role == Proxy
    case Waiting => t.role == Waiter
    case ObserveDuration => t.role == Waiter
    case PublishReady => t.role == Waiter
    case LogReady => t.role == Waiter
    case Broadcast => t.role == Waiter
    case Cancelled => t.role == Waiter
    case StopInspect => t.role == StopAll
    case CountIdle => t.role == IdleStop
    case LogIdle => t.role == IdleStop
    case TakeTimer => Stops(t.role)
    case StopCall => Stops(t.role)
    case LogStopError => Stops(t.role)
    case ClearRuntime => Stops(t.role)
    case LogStopped(_) => Stops(t.role)
    case CountStop => Stops(t.role)
    case Done => true
    case _ => Starts(t.role)
  }

  ghost predicate AllRouted(s: State) {
    forall i | 0 <= i < |s.threads| :: Routed(s.threads[i])
  }

  lemma LocalRouted(t: Thread, box: Box, lock: nat, cancelled: bool, choice: bool)
    requires Routed(t)
    ensures Routed(t.(pc := NextPc(t, box, lock, cancelled, choice)))
    ensures SpawnOf(t).Some? ==> Routed(SpawnOf(t).value)
  {
  }

  lemma RoutedThread(s: State, i: nat, choice: bool)
    requires AllRouted(s) && i < |s.threads|
    ensures AllRouted(RunThread(s, i, choice))
  {
    var t := s.threads[i];
    var c := t.cfg.container;
    LocalRouted(t, BoxOf(s, c), LockFor(s.locks, c, s.nextLock), s.cancelled, choice);
  }

  lemma {:induction false} RoutedStep(s: State, step: Step)
    requires AllRouted(s) && Enabled(s, step)
    ensures AllRouted(Apply(s, step))
  {
    if step.Run? { RoutedThread(s, step.i, step.choice); }
  }

  lemma {:induction false} RoutedRun(now: int, boxes: map<string, Box>, steps: seq<Step>)
    requires Legal(Boot(now, boxes), steps)
    ensures AllRouted(Exec(Boot(now, boxes), steps))
  {
    if steps != [] {
      RoutedRun(now, boxes, steps[..|steps| - 1]);
      RoutedStep(Exec(Boot(now, boxes), steps[..|steps| - 1]), steps[|steps| - 1]);
    }
  }

  ghost function Worth<A>(x: Option<A>, w: A -> int): int {
    if x.Some? then w(x.value) else 0
  }

  ghost predicate Balanced(g: Effect -> int, w: Thread -> int) {
    && (forall role, cfg | role != Waiter :: w(Thread(role, cfg, FirstPc(role))) == 0)
    && (forall c :: g(WentDown(c)) == 0)
    && (forall t: Thread, box, lock, cancelled, choice | Routed(t) ::
          Worth(EffectOf(t, box, choice), g)
          == w(t.(pc := NextPc(t, box, lock, cancelled, choice))) - w(t) + Worth(SpawnOf(t), w))
  }

  lemma LawThread(s: State, i: nat, choice: bool, g: Effect -> int, w: Thread -> int)
    requires Balanced(g, w) && AllRouted(s) && i < |s.threads| && Sum(s.log, g) == Sum(s.threads, w)
    ensures Sum(RunThread(s, i, choice).log, g) == Sum(RunThread(s, i, choice).threads, w)
  {
    var t := s.threads[i];
    var c := t.cfg.container;
    var t' := t.(pc := NextPc(t, BoxOf(s, c), LockFor(s.locks, c, s.nextLock), s.cancelled, choice));
    Tallies(s.threads, i, t', SpawnOf(t), w);
    Tallied(s.log, EffectOf(t, BoxOf(s, c), choice), g);
    assert RunThread(s, i, choice).log == Append(s.log, EffectOf(t, BoxOf(s, c), choice));
    assert RunThread(s, i, choice).threads == Append(s.threads[i := t'], SpawnOf(t));
  }

  lemma Tallied<A>(s: seq<A>, x: Option<A>, w: A -> int)
    ensures Sum(Append(s, x), w) == Sum(s, w) + Worth(x, w)
  {
    if x.Some? { SumAppend(s, x.value, w); }
  }

  lemma Tallies(s: seq<Thread>, i: nat, t: Thread, x: Option<Thread>, w: Thread -> int)
    requires i < |s|
    ensures Sum(Append(s[i := t], x), w) == Sum(s, w) - w(s[i]) + w(t) + Worth(x, w)
  {
    SumUpdate(s, i, t, w);
    Tallied(s[i := t], x, w);
  }

  /** A step of the environment logs a departure, or adds a thread at its first place, or does neither. */
  lemma EnvironmentShape(s: State, step: Step) returns (gone: Option<Effect>, came: Option<Thread>)
    requires !step.Run? && Enabled(s, step)
    ensures Apply(s, step).log == Append(s.log, gone) && Apply(s, step).threads == Append(s.threads, came)
    ensures gone.Some? ==> gone.value.WentDown?
    ensures came.Some? ==> came.value.role != Waiter && came.value.pc == FirstPc(came.value.role)
  {
    gone, came := None, None;
    match step
    case Request(role, cfg) => came := Some(Thread(role, cfg, FirstPc(role)));
    case Fire(id) => came := Some(Thread(IdleStop, s.table.heap[id].cfg, FirstPc(IdleStop)));
    case BoxDies(c) => gone := if BoxOf(s, c) == Up then Some(WentDown(c)) else None;
    case BoxFreezes(c) => gone := Some(WentDown(c));
    case _ =>
  }

  lemma LawEnvironment(s: State, step: Step, g: Effect -> int, w: Thread -> int)
    requires (forall role, cfg | role != Waiter :: w(Thread(role, cfg, FirstPc(role))) == 0)
    requires (forall c :: g(WentDown(c)) == 0)
    requires !step.Run? && Enabled(s, step) && Sum(s.log, g) == Sum(s.threads, w)
    ensures Sum(Apply(s, step).log, g) == Sum(Apply(s, step).threads, w)
  {
    var gone, came := EnvironmentShape(s, step);
    Tallied(s.log, gone, g);
    Tallied(s.threads, came, w);
    if came.Some? {
      assert came.value == Thread(came.value.role, came.value.cfg, FirstPc(came.value.role));
    }
    if gone.Some? {
      assert gone.value == WentDown(gone.value.container);
    }
  }

  lemma {:induction false} LawRun(now: int, boxes: map<string, Box>, steps: seq<Step>, g: Effect -> int, w: Thread -> int)
    requires Balanced(g, w) && Legal(Boot(now, boxes), steps)
    ensures var s := Exec(Boot(now, boxes), steps); Sum(s.log, g) == Sum(s.threads, w)
  {
    if steps != [] {
      var before := steps[..|steps| - 1];
      LawRun(now, boxes, before, g, w);
      RoutedRun(now, boxes, before);
      var s := Exec(Boot(now, boxes), before);
      var step := steps[|steps| - 1];
      if step.Run? {
        LawThread(s, step.i, step.choice, g, w);
      } else {
        LawEnvironment(s, step, g, w);
      }
    }
  }

  function One(b: bool): int { if b then 1 else 0 }

  /** The kinds of thread the laws speak about. */
  datatype Kind =
      // starts that are counted and have neither failed nor handed over to a waiter
    | Starting(sub: string)
      // waiters that have not finished
    | WaitingFor(sub: string)
      // waiters that have recorded that the service is ready
    | MadeReady(sub: string)
      // waiters that gave up at shutdown
    | GaveUp(sub: string)
      // a start about to be recorded as requested
    | Announcing(sub: string)
      // a waiter between its observation and its ready event
    | Publishing(sub: string)
      // a timer callback about to record the idle stop
    | AnnouncingIdle(sub: string)
      // a timer callback whose outcome event is still to come
    | IdleStopping(sub: string)
      // a stop that is recorded and about to be counted
    | CountingStop(sub: string, reason: Reason)
      // stop requests that have recorded their outcome
    | StoppedByHand(sub: string)
      // the first four together
    | StartedOrWaiter(sub: string)

  predicate Belongs(k: Kind, t: Thread) {
    && t.cfg.subdomain == k.sub
    && match k
       case Starting(_) => InStart(t.pc)
       case WaitingFor(_) => t.pc.Waiting? || t.pc.ObserveDuration? || t.pc.PublishReady? || t.pc.LogReady?
       case MadeReady(_) => t.role == Waiter && (t.pc.Broadcast? || t.pc.Done?)
       case GaveUp(_) => t.pc.Cancelled?
       case Announcing(_) => t.pc.LogRequested?
       case Publishing(_) => t.pc.PublishReady? || t.pc.LogReady?
       case AnnouncingIdle(_) => t.pc.LogIdle?
       case IdleStopping(_) => t.role == IdleStop && InStop(t.pc)
       case CountingStop(_, reason) => t.pc.CountStop? && ReasonOf(t.role) == reason
       case StoppedByHand(_) => t.role == ManualStop && (t.pc.CountStop? || t.pc.Done?)
       case StartedOrWaiter(_) => InStart(t.pc) || t.role == Waiter
  }

  predicate InStart(pc: Pc) {
    pc.LogRequested? || pc.MarkBoot? || pc.Issue? || pc.ClearBoot? || pc.LogStartError? || pc.Spawn?
  }

  predicate InStop(pc: Pc) {
    pc.TakeTimer? || pc.StopCall? || pc.LogStopError? || pc.ClearRuntime? || pc.LogStopped?
  }

  /** The number of threads of a kind. */
  ghost function Threads(s: State, k: Kind): int {
    Sum(s.threads, (t: Thread) => One(Belongs(k, t)))
  }

  ghost function Logged(s: State, e: Effect): int {
    Count(s.log, e)
  }

  /** How many entries of the log are in `es`. */
  ghost function CountAny(log: seq<Effect>, es: set<Effect>): int {
    if log == [] then 0 else CountAny(log[..|log| - 1], es) + One(log[|log| - 1] in es)
  }

  /** Signed counting: the sum of a difference of indicators is the difference of the counts. */
  lemma {:induction false} SignedCount(log: seq<Effect>, plus: set<Effect>, minus: set<Effect>, g: Effect -> int)
    requires forall e :: g(e) == One(e in plus) - One(e in minus)
    ensures Sum(log, g) == CountAny(log, plus) - CountAny(log, minus)
  {
    if log != [] {
      SignedCount(log[..|log| - 1], plus, minus, g);
    }
  }

  /** Counting a set of effects is counting its members one by one. */
  lemma {:induction false} CountAnySplit(log: seq<Effect>, es: set<Effect>, e: Effect)
    requires e !in es
    ensures CountAny(log, es + {e}) == CountAny(log, es) + Count(log, e)
    ensures es == {} ==> CountAny(log, es) == 0
  {
    if log != [] {
      var n := |log| - 1;
      assert log == log[..n] + [log[n]];
      CountAnySplit(log[..n], es, e);
    }
  }

  lemma CountOne(log: seq<Effect>, a: Effect)
    ensures CountAny(log, {}) == 0 && CountAny(log, {a}) == Count(log, a)
  {
    CountAnySplit(log, {}, a);
    assert {} + {a} == {a};
  }

  lemma CountTwo(log: seq<Effect>, a: Effect, b: Effect)
    requires a != b
    ensures CountAny(log, {a, b}) == Count(log, a) + Count(log, b)
  {
    CountOne(log, a);
    CountAnySplit(log, {a}, b);
    assert {a} + {b} == {a, b};
  }

  lemma CountThree(log: seq<Effect>, a: Effect, b: Effect, c: Effect)
    requires a != b && a != c && b != c
    ensures CountAny(log, {a, b, c}) == Count(log, a) + Count(log, b) + Count(log, c)
  {
    CountTwo(log, a, b);
    CountAnySplit(log, {a, b}, c);
    assert {a, b} + {c} == {a, b, c};
  }

  /** What an effect on the service of a kind adds to the balance that the kind's law keeps. */
  function Sign(k: Kind, e: Effect): int {
    match k
    case StartedOrWaiter(_) => One(e.StartCounted?) - One(e.StartFailed?)
    case Announcing(_) => One(e.StartCounted?) - One(e.StartRequested?)
    case Publishing(_) => One(e.DurationObserved?) - One(e.ReadyLogged?)
    case MadeReady(_) => One(e.ReadyLogged?)
    case AnnouncingIdle(_) => One(e.IdleCounted?) - One(e.IdleLogged?)
    case IdleStopping(_) =>
      One(e.IdleLogged?) - One((e.StoppedLogged? || e.PausedLogged? || e.StopFailed?) && e.reason == Idle)
    case CountingStop(_, r) => One((e.StoppedLogged? || e.PausedLogged?) && e.reason == r) - One(e.StopCounted? && e.reason == r)
    case StoppedByHand(_) => One((e.StoppedLogged? || e.PausedLogged? || e.StopFailed?) && e.reason == Manual)
    case _ => 0
  }

  function Score(k: Kind, e: Effect): int {
    if e.WentUp? || e.WentDown? || e.sub != k.sub then 0 else Sign(k, e)
  }

  /** The kinds that have a law. */
  predicate Lawful(k: Kind) {
    !k.Starting? && !k.WaitingFor? && !k.GaveUp?
  }

  /** One step of one thread changes the balance of a kind exactly as it changes the threads of the kind. */
  ghost predicate Fits(k: Kind, t: Thread, box: Box, lock: nat, cancelled: bool, choice: bool) {
    var e := EffectOf(t, box, choice);
    (if e.Some? then Score(k, e.value) else 0)
    == One(Belongs(k, t.(pc := NextPc(t, box, lock, cancelled, choice)))) - One(Belongs(k, t))
       + One(SpawnOf(t).Some? && Belongs(k, SpawnOf(t).value))
  }

  lemma StartFits(k: Kind, t: Thread, box: Box, lock: nat, cancelled: bool, choice: bool)
    requires Routed(t) && k.StartedOrWaiter?
    ensures Fits(k, t, box, lock, cancelled, choice)
  {
  }

  lemma RequestFits(k: Kind, t: Thread, box: Box, lock: nat, cancelled: bool, choice: bool)
    requires Routed(t) && k.Announcing?
    ensures Fits(k, t, box, lock, cancelled, choice)
  {
  }

  lemma ReadyFits(k: Kind, t: Thread, box: Box, lock: nat, cancelled: bool, choice: bool)
    requires Routed(t) && (k.Publishing? || k.MadeReady?)
    ensures Fits(k, t, box, lock, cancelled, choice)
  {
  }

  lemma IdleFits(k: Kind, t: Thread, box: Box, lock: nat, cancelled: bool, choice: bool)
    requires Routed(t) && k.AnnouncingIdle?
    ensures Fits(k, t, box, lock, cancelled, choice)
  {
  }

  lemma OutcomeFits(k: Kind, t: Thread, box: Box, lock: nat, cancelled: bool, choice: bool)
    requires Routed(t) && k.IdleStopping?
    ensures Fits(k, t, box, lock, cancelled, choice)
  {
  }

  lemma StopFits(k: Kind, t: Thread, box: Box, lock: nat, cancelled: bool, choice: bool)
    requires Routed(t) && k.CountingStop?
    ensures Fits(k, t, box, lock, cancelled, choice)
  {
  }

  lemma ByHandFits(k: Kind, t: Thread, box: Box, lock: nat, cancelled: bool, choice: bool)
    requires Routed(t) && k.StoppedByHand?
    ensures Fits(k, t, box, lock, cancelled, choice)
  {
  }

  lemma EachFits(k: Kind, t: Thread, box: Box, lock: nat, cancelled: bool, choice: bool)
    requires Routed(t) && Lawful(k)
    ensures Fits(k, t, box, lock, cancelled, choice)
  {
    match k
    case StartedOrWaiter(_) => StartFits(k, t, box, lock, cancelled, choice);
    case Announcing(_) => RequestFits(k, t, box, lock, cancelled, choice);
    case Publishing(_) => ReadyFits(k, t, box, lock, cancelled, choice);
    case MadeReady(_) => ReadyFits(k, t, box, lock, cancelled, choice);
    case AnnouncingIdle(_) => IdleFits(k, t, box, lock, cancelled, choice);
    case IdleStopping(_) => OutcomeFits(k, t, box, lock, cancelled, choice);
    case CountingStop(_, _) => StopFits(k, t, box, lock, cancelled, choice);
    case StoppedByHand(_) => ByHandFits(k, t, box, lock, cancelled, choice);
  }

  /** One law, ready to use: the threads of kind `k` account exactly for `plus` minus all of `minus`. */
  lemma {:induction false} Law(now: int, boxes: map<string, Box>, steps: seq<Step>, plus: set<Effect>, minus: set<Effect>, k: Kind)
    requires Lawful(k) && Legal(Boot(now, boxes), steps)
    requires forall e :: Score(k, e) == One(e in plus) - One(e in minus)
    ensures var s := Exec(Boot(now, boxes), steps);
            CountAny(s.log, plus) == CountAny(s.log, minus) + Threads(s, k)
  {
    var s := Exec(Boot(now, boxes), steps);
    var g: Effect -> int := e => Score(k, e);
    var w: Thread -> int := (t: Thread) => One(Belongs(k, t));
    forall t: Thread, box, lock, cancelled, choice | Routed(t)
      ensures Worth(EffectOf(t, box, choice), g)
              == w(t.(pc := NextPc(t, box, lock, cancelled, choice))) - w(t) + Worth(SpawnOf(t), w)
    {
      EachFits(k, t, box, lock, cancelled, choice);
    }
    LawRun(now, boxes, steps, g, w);
    SignedCount(s.log, plus, minus, g);
  }

  lemma {:induction false} StartLaw(now: int, boxes: map<string, Box>, steps: seq<Step>, x: string)
    requires Legal(Boot(now, boxes), steps)
    ensures var s := Exec(Boot(now, boxes), steps);
            Logged(s, StartCounted(x)) == Logged(s, StartFailed(x)) + Threads(s, StartedOrWaiter(x))
  {
    var s := Exec(Boot(now, boxes), steps);
    Law(now, boxes, steps, {StartCounted(x)}, {StartFailed(x)}, StartedOrWaiter(x));
    CountOne(s.log, StartCounted(x));
    CountOne(s.log, StartFailed(x));
  }

  lemma {:induction false} RequestLaw(now: int, boxes: map<string, Box>, steps: seq<Step>, x: string)
    requires Legal(Boot(now, boxes), steps)
    ensures var s := Exec(Boot(now, boxes), steps);
            Logged(s, StartCounted(x)) == Logged(s, StartRequested(x)) + Threads(s, Announcing(x))
  {
    var s := Exec(Boot(now, boxes), steps);
    Law(now, boxes, steps, {StartCounted(x)}, {StartRequested(x)}, Announcing(x));
    CountOne(s.log, StartCounted(x));
    CountOne(s.log, StartRequested(x));
  }

  lemma {:induction false} PublishLaw(now: int, boxes: map<string, Box>, steps: seq<Step>, x: string)
    requires Legal(Boot(now, boxes), steps)
    ensures var s := Exec(Boot(now, boxes), steps);
            Logged(s, DurationObserved(x)) == Logged(s, ReadyLogged(x)) + Threads(s, Publishing(x))
  {
    var s := Exec(Boot(now, boxes), steps);
    Law(now, boxes, steps, {DurationObserved(x)}, {ReadyLogged(x)}, Publishing(x));
    CountOne(s.log, DurationObserved(x));
    CountOne(s.log, ReadyLogged(x));
  }

  lemma {:induction false} ReadyLaw(now: int, boxes: map<string, Box>, steps: seq<Step>, x: string)
    requires Legal(Boot(now, boxes), steps)
    ensures var s := Exec(Boot(now, boxes), steps);
            Logged(s, ReadyLogged(x)) == Threads(s, MadeReady(x))
  {
    var s := Exec(Boot(now, boxes), steps);
    Law(now, boxes, steps, {ReadyLogged(x)}, {}, MadeReady(x));
    CountOne(s.log, ReadyLogged(x));
  }

  lemma {:induction false} IdleLaw(now: int, boxes: map<string, Box>, steps: seq<Step>, x: string)
    requires Legal(Boot(now, boxes), steps)
    ensures var s := Exec(Boot(now, boxes), steps);
            Logged(s, IdleCounted(x)) == Logged(s, IdleLogged(x)) + Threads(s, AnnouncingIdle(x))
  {
    var s := Exec(Boot(now, boxes), steps);
    Law(now, boxes, steps, {IdleCounted(x)}, {IdleLogged(x)}, AnnouncingIdle(x));
    CountOne(s.log, IdleCounted(x));
    CountOne(s.log, IdleLogged(x));
  }

  lemma {:induction false} OutcomeLaw(now: int, boxes: map<string, Box>, steps: seq<Step>, x: string)
    requires Legal(Boot(now, boxes), steps)
    ensures var s := Exec(Boot(now, boxes), steps);
            Logged(s, IdleLogged(x)) ==
            Logged(s, StoppedLogged(x, Idle)) + Logged(s, PausedLogged(x, Idle)) + Logged(s, StopFailed(x, Idle))
              + Threads(s, IdleStopping(x))
  {
    var s := Exec(Boot(now, boxes), steps);
    var outcomes := {StoppedLogged(x, Idle), PausedLogged(x, Idle), StopFailed(x, Idle)};
    Law(now, boxes, steps, {IdleLogged(x)}, outcomes, IdleStopping(x));
    CountOne(s.log, IdleLogged(x));
    CountThree(s.log, StoppedLogged(x, Idle), PausedLogged(x, Idle), StopFailed(x, Idle));
  }

  lemma {:induction false} StopLaw(now: int, boxes: map<string, Box>, steps: seq<Step>, x: string, r: Reason)
    requires Legal(Boot(now, boxes), steps)
    ensures var s := Exec(Boot(now, boxes), steps);
            Logged(s, StoppedLogged(x, r)) + Logged(s, PausedLogged(x, r)) ==
            Logged(s, StopCounted(x, r)) + Threads(s, CountingStop(x, r))
  {
    var s := Exec(Boot(now, boxes), steps);
    Law(now, boxes, steps, {StoppedLogged(x, r), PausedLogged(x, r)}, {StopCounted(x, r)}, CountingStop(x, r));
    CountTwo(s.log, StoppedLogged(x, r), PausedLogged(x, r));
    CountOne(s.log, StopCounted(x, r));
  }

  lemma {:induction false} ByHandLaw(now: int, boxes: map<string, Box>, steps: seq<Step>, x: string)
    requires Legal(Boot(now, boxes), steps)
    ensures var s := Exec(Boot(now, boxes), steps);
            Logged(s, StoppedLogged(x, Manual)) + Logged(s, PausedLogged(x, Manual)) + Logged(s, StopFailed(x, Manual))
            == Threads(s, StoppedByHand(x))
  {
    var s := Exec(Boot(now, boxes), steps);
    var outcomes := {StoppedLogged(x, Manual), PausedLogged(x, Manual), StopFailed(x, Manual)};
    Law(now, boxes, steps, outcomes, {}, StoppedByHand(x));
    CountOne(s.log, StopFailed(x, Manual));
    CountThree(s.log, StoppedLogged(x, Manual), PausedLogged(x, Manual), StopFailed(x, Manual));
  }

  /** Starts that are counted are failed, in flight, or handed over to a waiter; a waiter waits, has made the
      service ready, or gave up at shutdown. Ready events are exactly the waiters that made it. */
  lemma {:induction false} StartConservation(now: int, boxes: map<string, Box>, steps: seq<Step>, x: string)
    requires Legal(Boot(now, boxes), steps)
    ensures var s := Exec(Boot(now, boxes), steps);
            && Logged(s, StartCounted(x)) ==
               Logged(s, StartFailed(x)) + Threads(s, Starting(x))
                 + Threads(s, WaitingFor(x)) + Threads(s, MadeReady(x)) + Threads(s, GaveUp(x))
            && Logged(s, ReadyLogged(x)) == Threads(s, MadeReady(x))
            && Logged(s, StartCounted(x)) == Logged(s, StartRequested(x)) + Threads(s, Announcing(x))
            && Logged(s, DurationObserved(x)) == Logged(s, ReadyLogged(x)) + Threads(s, Publishing(x))
  {
    StartLaw(now, boxes, steps, x);
    RequestLaw(now, boxes, steps, x);
    PublishLaw(now, boxes, steps, x);
    ReadyLaw(now, boxes, steps, x);
    RoutedRun(now, boxes, steps);
    SplitStarted(Exec(Boot(now, boxes), steps).threads, x);
  }

  lemma SplitOne(t: Thread, x: string)
    requires Routed(t)
    ensures One(Belongs(StartedOrWaiter(x), t)) ==
            One(Belongs(Starting(x), t)) + One(Belongs(WaitingFor(x), t)) + One(Belongs(MadeReady(x), t))
            + One(Belongs(GaveUp(x), t))
  {
  }

  /** The starts and waiters of a service, taken apart by how far they got. */
  lemma {:induction false} SplitStarted(ts: seq<Thread>, x: string)
    requires forall i | 0 <= i < |ts| :: Routed(ts[i])
    ensures Sum(ts, (t: Thread) => One(Belongs(StartedOrWaiter(x), t))) ==
            Sum(ts, (t: Thread) => One(Belongs(Starting(x), t))) + Sum(ts, (t: Thread) => One(Belongs(WaitingFor(x), t)))
            + Sum(ts, (t: Thread) => One(Belongs(MadeReady(x), t))) + Sum(ts, (t: Thread) => One(Belongs(GaveUp(x), t)))
  {
    if ts != [] {
      SplitStarted(ts[..|ts| - 1], x);
      SplitOne(ts[|ts| - 1], x);
    }
  }

  /** Every idle stop that is recorded has exactly one outcome event with reason idle, or is still under way; every stop request
      that has got as far has exactly one with reason manual; and the stops counter agrees with the stopped and paused
      events, reason by reason. */
  lemma {:induction false} StopConservation(now: int, boxes: map<string, Box>, steps: seq<Step>, x: string, r: Reason)
    requires Legal(Boot(now, boxes), steps)
    ensures var s := Exec(Boot(now, boxes), steps);
            && Logged(s, IdleCounted(x)) == Logged(s, IdleLogged(x)) + Threads(s, AnnouncingIdle(x))
            && Logged(s, IdleLogged(x)) ==
               Logged(s, StoppedLogged(x, Idle)) + Logged(s, PausedLogged(x, Idle)) + Logged(s, StopFailed(x, Idle))
                 + Threads(s, IdleStopping(x))
            && Logged(s, StoppedLogged(x, Manual)) + Logged(s, PausedLogged(x, Manual)) + Logged(s, StopFailed(x, Manual)) ==
               Threads(s, StoppedByHand(x))
            && Logged(s, StoppedLogged(x, r)) + Logged(s, PausedLogged(x, r)) ==
               Logged(s, StopCounted(x, r)) + Threads(s, CountingStop(x, r))
  {
    ByHandLaw(now, boxes, steps, x);
    IdleLaw(now, boxes, steps, x);
    OutcomeLaw(now, boxes, steps, x);
    StopLaw(now, boxes, steps, x, r);
  }

  /** Nothing is under way except waiters that have not seen an open port yet. */
  ghost predicate Quiet(s: State) {
    forall i | 0 <= i < |s.threads| :: Finished(s.threads[i]) || s.threads[i].pc == Waiting
  }

  /** At quiescence every counter agrees with the events. */
  lemma {:induction false} QuiescentCounts(now: int, boxes: map<string, Box>, steps: seq<Step>, x: string, r: Reason)
    requires Legal(Boot(now, boxes), steps) && Quiet(Exec(Boot(now, boxes), steps))
    ensures var s := Exec(Boot(now, boxes), steps);
            && Logged(s, StartCounted(x)) == Logged(s, StartRequested(x))
            && Logged(s, StartCounted(x)) ==
               Logged(s, StartFailed(x)) + Logged(s, ReadyLogged(x)) + Threads(s, WaitingFor(x)) + Threads(s, GaveUp(x))
            && Logged(s, DurationObserved(x)) == Logged(s, ReadyLogged(x))
            && Logged(s, IdleCounted(x)) == Logged(s, IdleLogged(x))
            && Logged(s, IdleLogged(x)) ==
               Logged(s, StoppedLogged(x, Idle)) + Logged(s, PausedLogged(x, Idle)) + Logged(s, StopFailed(x, Idle))
            && Logged(s, StopCounted(x, r)) == Logged(s, StoppedLogged(x, r)) + Logged(s, PausedLogged(x, r))
  {
    var s := Exec(Boot(now, boxes), steps);
    StartConservation(now, boxes, steps, x);
    StopConservation(now, boxes, steps, x, r);
    NoneUnderWay(s, Starting(x));
    NoneUnderWay(s, Announcing(x));
    NoneUnderWay(s, Publishing(x));
    NoneUnderWay(s, AnnouncingIdle(x));
    NoneUnderWay(s, IdleStopping(x));
    NoneUnderWay(s, CountingStop(x, r));
  }

  lemma NoneUnderWay(s: State, k: Kind)
    requires Quiet(s) && !k.WaitingFor? && !k.MadeReady? && !k.GaveUp? && !k.StoppedByHand? && !k.StartedOrWaiter?
    ensures Threads(s, k) == 0
  {
    SumZero(s.threads, (t: Thread) => One(Belongs(k, t)));
  }

  lemma CancelStep(s: State, step: Step)
    requires Enabled(s, step)
    ensures Apply(s, step).cancelled <==> s.cancelled || step == CancelRoot
    ensures forall i | 0 <= i < |Apply(s, step).threads| && Apply(s, step).threads[i].pc.Cancelled? ::
              s.cancelled || (i < |s.threads| && s.threads[i].pc.Cancelled?)
  {
    forall i: nat | i < |Apply(s, step).threads|
      ensures Apply(s, step).threads[i].pc.Cancelled? ==> s.cancelled || (i < |s.threads| && s.threads[i].pc.Cancelled?)
    {
      ThreadAfter(s, step, i);
    }
  }

  /** A waiter gives up only after shutdown has begun, and shutdown has begun exactly if the run has such a step. */
  lemma {:induction false} GivingUpIsShutdown(now: int, boxes: map<string, Box>, steps: seq<Step>, i: nat)
    requires Legal(Boot(now, boxes), steps)
    ensures var s := Exec(Boot(now, boxes), steps);
            && (s.cancelled <==> CancelRoot in steps)
            && (i < |s.threads| && s.threads[i].pc.Cancelled? ==> CancelRoot in steps)
  {
    if steps != [] {
      var n := |steps| - 1;
      GivingUpIsShutdown(now, boxes, steps[..n], i);
      CancelStep(Exec(Boot(now, boxes), steps[..n]), steps[n]);
      assert steps == steps[..n] + [steps[n]];
    }
  }
}
