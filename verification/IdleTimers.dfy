/** Idle timers: one runtime timer per container, armed, reset, taken away and fired.

    The runtime's timer heap is part of the state, so a timer that is no longer stored in the
    table but could still fire is visible to the invariants. */
module IdleTimers {
  import opened Tally
  import opened Services

  datatype Status = Pending | Fired | Stopped

  /** A timer created by time.AfterFunc; its callback captures `cfg`. */
  datatype Timer = Timer(cfg: Config, created: int, status: Status)

  /** `idle` maps container names to handles into `heap`. `doomed` holds the handles that
      shutdown has taken out of the table and not stopped yet. */
  datatype Table = Table(now: int, heap: seq<Timer>, idle: map<string, nat>, doomed: set<nat>)

  /** Timer.Stop: only a pending timer can still be prevented from firing. */
  function Halt(heap: seq<Timer>, id: nat): seq<Timer> {
    if id < |heap| && heap[id].status == Pending then heap[id := heap[id].(status := Stopped)] else heap
  }

  function HaltStored(t: Table, key: string): seq<Timer> {
    if key in t.idle then Halt(t.heap, t.idle[key]) else t.heap
  }

  /** armIdleTimer: an entry that is already there is left alone, even a fired one. */
  function Arm(t: Table, cfg: Config): Table {
    if cfg.disableIdle || cfg.container in t.idle then t
    else t.(heap := t.heap + [Timer(cfg, t.now, Pending)], idle := t.idle[cfg.container := |t.heap|])
  }

  /** resetIdleTimer: stop the stored timer, store a new one. */
  function Reset(t: Table, cfg: Config): Table {
    if cfg.disableIdle then t
    else
      var heap := HaltStored(t, cfg.container);
      t.(heap := heap + [Timer(cfg, t.now, Pending)], idle := t.idle[cfg.container := |heap|])
  }

  /** The stop-and-delete section shared by stopping a container and by a disappearance. */
  function Take(t: Table, key: string): Table {
    t.(heap := HaltStored(t, key), idle := t.idle - {key})
  }

  datatype Step =
    | Elapse(d: nat)
    | ArmStep(cfg: Config)
    | ResetStep(cfg: Config)
    | TakeStep(key: string)
    | FireStep(id: nat)
    | SwapStep
    | HaltStep(id: nat)

  predicate Enabled(t: Table, step: Step) {
    match step
    case FireStep(id) =>
      id < |t.heap| && t.heap[id].status == Pending && t.now >= t.heap[id].created + t.heap[id].cfg.idleTimeout
    case HaltStep(id) => id in t.doomed
    case _ => true
  }

  function Apply(t: Table, step: Step): Table {
    match step
    case Elapse(d) => t.(now := t.now + d)
    case ArmStep(cfg) => Arm(t, cfg)
    case ResetStep(cfg) => Reset(t, cfg)
    case TakeStep(key) => Take(t, key)
    case FireStep(id) => if id < |t.heap| then t.(heap := t.heap[id := t.heap[id].(status := Fired)]) else t
    case SwapStep => t.(idle := map[], doomed := t.doomed + t.idle.Values)
    case HaltStep(id) => t.(heap := Halt(t.heap, id), doomed := t.doomed - {id})
  }

  function Exec(t: Table, steps: seq<Step>): Table {
    if steps == [] then t else Apply(Exec(t, steps[..|steps| - 1]), steps[|steps| - 1])
  }

  predicate Legal(t: Table, steps: seq<Step>) {
    steps == []
    || (Legal(t, steps[..|steps| - 1]) && Enabled(Exec(t, steps[..|steps| - 1]), steps[|steps| - 1]))
  }

  function Start(now: int): Table {
    Table(now, [], map[], {})
  }

  /** When the timer of `key` was last reset in a run; a reset of a service whose idle stop is
      disabled does nothing and does not count. */
  function LastReset(t: Table, steps: seq<Step>, key: string): Option<int> {
    if steps == [] then None
    else
      var before := steps[..|steps| - 1];
      var last := steps[|steps| - 1];
      if last.ResetStep? && !last.cfg.disableIdle && last.cfg.container == key then Some(Exec(t, before).now)
      else LastReset(t, before, key)
  }

  /** Every pending timer is the stored one of its key, or is being shut down. */
  ghost predicate Owned(t: Table) {
    && (forall k | k in t.idle :: t.idle[k] < |t.heap| && t.heap[t.idle[k]].cfg.container == k)
    && (forall i | 0 <= i < |t.heap| && t.heap[i].status == Pending ::
          i in t.doomed || (t.heap[i].cfg.container in t.idle && t.idle[t.heap[i].cfg.container] == i))
  }

  /** A pending timer outside the shutdown window was created no earlier than the last reset of its key. */
  ghost predicate Fresh(t: Table, last: string -> Option<int>) {
    && (forall i | 0 <= i < |t.heap| && t.heap[i].status == Pending && i !in t.doomed ::
          last(t.heap[i].cfg.container).Some? ==> last(t.heap[i].cfg.container).value <= t.heap[i].created)
    && (forall k :: last(k).Some? ==> last(k).value <= t.now)
  }

  lemma OwnedReset(t: Table, cfg: Config)
    requires Owned(t)
    ensures Owned(Reset(t, cfg))
  {
  }

  lemma OwnedTake(t: Table, key: string)
    requires Owned(t)
    ensures Owned(Take(t, key))
  {
  }

  lemma OwnedSwap(t: Table)
    requires Owned(t)
    ensures Owned(Apply(t, SwapStep))
  {
    assert forall k | k in t.idle :: t.idle[k] in t.idle.Values;
  }

  lemma OwnedStep(t: Table, step: Step)
    requires Owned(t) && Enabled(t, step)
    ensures Owned(Apply(t, step))
  {
    match step
    case ResetStep(cfg) => OwnedReset(t, cfg);
    case TakeStep(key) => OwnedTake(t, key);
    case SwapStep => OwnedSwap(t);
    case _ =>
  }

  lemma {:induction false} OwnedRun(t: Table, steps: seq<Step>)
    requires Owned(t) && Legal(t, steps)
    ensures Owned(Exec(t, steps))
  {
    if steps != [] {
      OwnedRun(t, steps[..|steps| - 1]);
      OwnedStep(Exec(t, steps[..|steps| - 1]), steps[|steps| - 1]);
    }
  }

  /** Ownership over every run: a pending timer that shutdown has not taken out of the table is the stored
      one of its key, so it is not orphaned and a key has at most one of them. */
  lemma {:induction false} TimerOwnership(now: int, steps: seq<Step>)
    requires Legal(Start(now), steps)
    ensures var t := Exec(Start(now), steps);
            forall i | 0 <= i < |t.heap| && t.heap[i].status == Pending && i !in t.doomed ::
              t.heap[i].cfg.container in t.idle && t.idle[t.heap[i].cfg.container] == i
    ensures var t := Exec(Start(now), steps);
            forall i, j | 0 <= i < |t.heap| && 0 <= j < |t.heap| && i !in t.doomed && j !in t.doomed
                          && t.heap[i].status == Pending && t.heap[j].status == Pending ::
              t.heap[i].cfg.container == t.heap[j].cfg.container ==> i == j
  {
    OwnedRun(Start(now), steps);
  }

  /** The pending timers of a key. */
  ghost function Live(t: Table, key: string): set<nat> {
    set i | 0 <= i < |t.heap| && t.heap[i].status == Pending && t.heap[i].cfg.container == key
  }

  /** What each operation leaves pending, when shutdown is not under way: a reset leaves exactly one new timer,
      a take leaves none and frees the key for the next arm, an arm adds one only if the key was free, a new timer has the
      configuration that the operation was given, and no operation touches the timers of another key. */
  lemma OperationEffects(t: Table, cfg: Config, key: string)
    requires Owned(t) && t.doomed == {}
    ensures Live(Take(t, cfg.container), cfg.container) == {} && cfg.container !in Take(t, cfg.container).idle
    ensures !cfg.disableIdle ==>
              && Live(Reset(t, cfg), cfg.container) == {|t.heap|}
              && |Reset(t, cfg).heap| == |t.heap| + 1
              && Reset(t, cfg).heap[|t.heap|] == Timer(cfg, t.now, Pending)
    ensures !cfg.disableIdle && cfg.container !in t.idle ==>
              Arm(t, cfg).heap == t.heap + [Timer(cfg, t.now, Pending)] && Arm(t, cfg).idle[cfg.container] == |t.heap|
    ensures Live(Arm(t, cfg), cfg.container) ==
            if cfg.disableIdle || cfg.container in t.idle then Live(t, cfg.container) else {|t.heap|}
    ensures key != cfg.container ==>
              Live(Take(t, cfg.container), key) == Live(Reset(t, cfg), key) == Live(Arm(t, cfg), key) == Live(t, key)
  {
  }

  ghost function Last(t: Table, steps: seq<Step>): string -> Option<int> {
    key => LastReset(t, steps, key)
  }

  lemma FreshStep(t: Table, step: Step, last: string -> Option<int>, last': string -> Option<int>)
    requires Owned(t) && Enabled(t, step) && Fresh(t, last)
    requires forall k :: last'(k) ==
                         if step.ResetStep? && !step.cfg.disableIdle && step.cfg.container == k then Some(t.now) else last(k)
    ensures Fresh(Apply(t, step), last')
  {
    var t' := Apply(t, step);
    forall i | 0 <= i < |t'.heap| && t'.heap[i].status == Pending && i !in t'.doomed
      ensures last'(t'.heap[i].cfg.container).Some? ==> last'(t'.heap[i].cfg.container).value <= t'.heap[i].created
    {
      if i < |t.heap| {
        assert t.heap[i].cfg == t'.heap[i].cfg && t.heap[i].created == t'.heap[i].created;
        assert t.heap[i].status == Pending;
      }
    }
  }

  lemma {:induction false} FreshRun(t: Table, steps: seq<Step>)
    requires t == Start(t.now) && Legal(t, steps)
    ensures Fresh(Exec(t, steps), Last(t, steps))
  {
    if steps != [] {
      var before := steps[..|steps| - 1];
      FreshRun(t, before);
      OwnedRun(t, before);
      FreshStep(Exec(t, before), steps[|steps| - 1], Last(t, before), Last(t, steps));
    }
  }

  /** Step `n` of the run has created timer `id`, with the configuration it was given and at the time it was made. */
  ghost predicate CreatedBy(now: int, steps: seq<Step>, n: nat, id: nat) {
    && n < |steps| && (steps[n].ArmStep? || steps[n].ResetStep?) && !steps[n].cfg.disableIdle
    && var t, before := Exec(Start(now), steps), Exec(Start(now), steps[..n]);
    && |before.heap| == id < |t.heap| && t.heap[id].cfg == steps[n].cfg && t.heap[id].created == before.now
  }

  lemma OneCreated(t: Table, step: Step)
    ensures |t.heap| <= |Apply(t, step).heap| <= |t.heap| + 1
    ensures forall i | 0 <= i < |t.heap| ::
              Apply(t, step).heap[i].cfg == t.heap[i].cfg && Apply(t, step).heap[i].created == t.heap[i].created
    ensures |Apply(t, step).heap| > |t.heap| ==>
              && (step.ArmStep? || step.ResetStep?) && !step.cfg.disableIdle
              && Apply(t, step).heap[|t.heap|] == Timer(step.cfg, t.now, Pending)
  {
  }

  /** Every timer stems from an arm or a reset of the run. */
  lemma {:induction false} TimerOrigin(now: int, steps: seq<Step>, id: nat) returns (n: nat)
    requires id < |Exec(Start(now), steps).heap|
    ensures CreatedBy(now, steps, n, id)
  {
    var before, step := steps[..|steps| - 1], steps[|steps| - 1];
    var t := Exec(Start(now), before);
    OneCreated(t, step);
    if id < |t.heap| {
      n := TimerOrigin(now, before, id);
      assert before[..n] == steps[..n];
    } else {
      n := |before|;
    }
  }

  lemma FiresInTime(now: int, steps: seq<Step>, id: nat)
    requires Legal(Start(now), steps + [FireStep(id)])
    ensures var t := Exec(Start(now), steps);
            id < |t.heap| && t.now - t.heap[id].created >= t.heap[id].cfg.idleTimeout
    ensures var t := Exec(Start(now), steps);
            var last := LastReset(Start(now), steps, t.heap[id].cfg.container);
            id !in t.doomed && last.Some? ==> t.now - last.value >= t.heap[id].cfg.idleTimeout
  {
    var all := steps + [FireStep(id)];
    assert all[..|all| - 1] == steps;
    FreshRun(Start(now), steps);
    var t := Exec(Start(now), steps);
    assert Last(Start(now), steps)(t.heap[id].cfg.container) == LastReset(Start(now), steps, t.heap[id].cfg.container);
  }

  /** No premature firing, over every run: a timer that fires was created by an arm or a reset of the run, at least the idle
      timeout of that step's configuration ago; and, unless shutdown has already taken it out of the table, that
      timeout has also passed since the last reset of its container. */
  lemma NoPrematureFiring(now: int, steps: seq<Step>, id: nat) returns (n: nat)
    requires Legal(Start(now), steps + [FireStep(id)])
    ensures CreatedBy(now, steps, n, id)
    ensures Exec(Start(now), steps).now - Exec(Start(now), steps[..n]).now >= steps[n].cfg.idleTimeout
    ensures var last := LastReset(Start(now), steps, steps[n].cfg.container);
            id !in Exec(Start(now), steps).doomed && last.Some? ==>
              Exec(Start(now), steps).now - last.value >= steps[n].cfg.idleTimeout
  {
    FiresInTime(now, steps, id);
    n := TimerOrigin(now, steps, id);
  }

  /** The exception is real: a request that resets the timer after shutdown has swapped the table, and before
      shutdown has stopped the old timer, does not keep the old timer from firing. */
  lemma ShutdownWindowFiresEarly(cfg: Config)
    requires !cfg.disableIdle && cfg.idleTimeout > 0
    ensures var steps := [ResetStep(cfg), Elapse(cfg.idleTimeout), SwapStep, ResetStep(cfg)];
            && Legal(Start(0), steps + [FireStep(0)])
            && LastReset(Start(0), steps, cfg.container) == Some(cfg.idleTimeout)
            && Exec(Start(0), steps).now - cfg.idleTimeout < cfg.idleTimeout
            && Live(Exec(Start(0), steps), cfg.container) == {0, 1}
  {
    var s1 := [ResetStep(cfg)];
    var s2 := s1 + [Elapse(cfg.idleTimeout)];
    var s3 := s2 + [SwapStep];
    var s4 := s3 + [ResetStep(cfg)];
    var s5 := s4 + [FireStep(0)];
    assert s1[..0] == [] && s2[..1] == s1 && s3[..2] == s2 && s4[..3] == s3 && s5[..4] == s4;
    var t0 := Start(0);
    var t1 := Reset(t0, cfg);
    assert Exec(t0, s1) == t1;
    assert t1.idle == map[cfg.container := 0];
    var t2 := t1.(now := cfg.idleTimeout);
    assert Exec(t0, s2) == t2 && Legal(t0, s2);
    var t3 := Apply(t2, SwapStep);
    assert cfg.container in t2.idle;
    assert t3.doomed == {0};
    assert Exec(t0, s3) == t3 && Legal(t0, s3);
    assert Exec(t0, s4) == Reset(t3, cfg) && Legal(t0, s4);
    assert s4 == [ResetStep(cfg), Elapse(cfg.idleTimeout), SwapStep, ResetStep(cfg)];
  }

  /** Step `n` of the run is a shutdown that takes the handle out of the table. */
  ghost predicate TakenOut(now: int, steps: seq<Step>, n: nat, id: nat) {
    n < |steps| && steps[n] == SwapStep && id in Exec(Start(now), steps[..n]).idle.Values
  }

  lemma {:induction false} DoomedWasTaken(now: int, steps: seq<Step>, id: nat) returns (n: nat)
    requires id in Exec(Start(now), steps).doomed
    ensures TakenOut(now, steps, n, id)
  {
    var before, step := steps[..|steps| - 1], steps[|steps| - 1];
    if id in Exec(Start(now), before).doomed {
      n := DoomedWasTaken(now, before, id);
      assert before[..n] == steps[..n];
    } else {
      n := |before|;
    }
  }

  /** Only shutdown stops handles from outside the table: one that it stops was taken out of the table by it before. */
  lemma HaltedWasTaken(now: int, steps: seq<Step>, id: nat) returns (n: nat)
    requires Legal(Start(now), steps + [HaltStep(id)])
    ensures TakenOut(now, steps, n, id)
  {
    Snoc(Start(now), steps, HaltStep(id));
    n := DoomedWasTaken(now, steps, id);
  }

  // When a timer can fire early

  /** Handles being shut down are out of the table, and only timers with idle stop enabled are ever created. */
  ghost predicate Apart(t: Table) {
    && (forall id | id in t.doomed :: id < |t.heap|)
    && (forall k | k in t.idle :: t.idle[k] !in t.doomed)
    && (forall i | 0 <= i < |t.heap| :: !t.heap[i].cfg.disableIdle)
  }

  lemma ApartStep(t: Table, step: Step)
    requires Owned(t) && Apart(t)
    ensures Apart(Apply(t, step))
  {
    if step.SwapStep? {
      assert forall id | id in t.idle.Values :: exists k :: k in t.idle && t.idle[k] == id;
    }
  }

  lemma {:induction false} ApartRun(now: int, steps: seq<Step>)
    requires Legal(Start(now), steps)
    ensures Apart(Exec(Start(now), steps))
  {
    if steps != [] {
      ApartRun(now, steps[..|steps| - 1]);
      OwnedRun(Start(now), steps[..|steps| - 1]);
      ApartStep(Exec(Start(now), steps[..|steps| - 1]), steps[|steps| - 1]);
    }
  }

  /** After the run the timer can fire although less than its idle timeout has passed since the last reset of its container. */
  ghost predicate FiresEarly(now: int, steps: seq<Step>, id: nat) {
    && Legal(Start(now), steps)
    && var t := Exec(Start(now), steps);
    && Enabled(t, FireStep(id))
    && var last := LastReset(Start(now), steps, t.heap[id].cfg.container);
    && last.Some? && t.now - last.value < t.heap[id].cfg.idleTimeout
  }

  /** The table is not swapped: no shutdown begins. */
  ghost predicate SwapFree(steps: seq<Step>) {
    forall step | step in steps :: !step.SwapStep?
  }

  /** It can come to that without a further shutdown. */
  ghost predicate CanFireEarly(now: int, steps: seq<Step>, id: nat) {
    exists more :: SwapFree(more) && FiresEarly(now, steps + more, id)
  }

  lemma Snoc(t: Table, steps: seq<Step>, step: Step)
    ensures Exec(t, steps + [step]) == Apply(Exec(t, steps), step)
    ensures Legal(t, steps + [step]) <==> Legal(t, steps) && Enabled(Exec(t, steps), step)
    ensures forall key :: LastReset(t, steps + [step], key) ==
              if step.ResetStep? && !step.cfg.disableIdle && step.cfg.container == key then Some(Exec(t, steps).now)
              else LastReset(t, steps, key)
  {
    assert (steps + [step])[..|steps|] == steps;
  }

  /** What a run without a swap keeps: the timers' configurations, and that a timer is not being shut down. */
  lemma {:induction false} SwapFreeKeeps(now: int, steps: seq<Step>, more: seq<Step>, id: nat)
    requires SwapFree(more) && id < |Exec(Start(now), steps).heap|
    ensures var t, t' := Exec(Start(now), steps), Exec(Start(now), steps + more);
            && id < |t'.heap| && t'.heap[id].cfg == t.heap[id].cfg
            && (id !in t.doomed ==> id !in t'.doomed)
  {
    if more == [] {
      assert steps + more == steps;
    } else {
      var front, step := more[..|more| - 1], more[|more| - 1];
      assert step in more && steps + more == (steps + front) + [step];
      SwapFreeKeeps(now, steps, front, id);
      Snoc(Start(now), steps + front, step);
    }
  }

  /** A reset is never later than now. */
  lemma {:induction false} ResetIsPast(now: int, steps: seq<Step>, key: string)
    requires Legal(Start(now), steps)
    ensures var last := LastReset(Start(now), steps, key); last.Some? ==> last.value <= Exec(Start(now), steps).now
  {
    FreshRun(Start(now), steps);
    assert Last(Start(now), steps)(key) == LastReset(Start(now), steps, key);
  }

  /** A reset leaves alone the timers that are being shut down, and in time they are due. */
  lemma DoomedSurvivesReset(t: Table, id: nat, d: nat)
    requires Owned(t) && Apart(t) && id < |t.heap| && t.heap[id].status == Pending && id in t.doomed
    requires t.now + d >= t.heap[id].created + t.heap[id].cfg.idleTimeout
    ensures Enabled(Reset(t.(now := t.now + d), t.heap[id].cfg), FireStep(id))
    ensures Reset(t.(now := t.now + d), t.heap[id].cfg).heap[id] == t.heap[id]
    ensures Reset(t.(now := t.now + d), t.heap[id].cfg).now == t.now + d
  {
  }

  /** A pending timer that is being shut down fires early after a reset that finds it no longer in the table. */
  lemma DoomedFiresEarly(now: int, steps: seq<Step>, id: nat)
    requires Legal(Start(now), steps)
    requires var t := Exec(Start(now), steps);
             id < |t.heap| && t.heap[id].status == Pending && id in t.doomed && t.heap[id].cfg.idleTimeout > 0
    ensures CanFireEarly(now, steps, id)
  {
    var t := Exec(Start(now), steps);
    var cfg := t.heap[id].cfg;
    ApartRun(now, steps);
    OwnedRun(Start(now), steps);
    var d: nat := if t.now >= t.heap[id].created + cfg.idleTimeout then 0 else t.heap[id].created + cfg.idleTimeout - t.now;
    DoomedSurvivesReset(t, id, d);
    Snoc(Start(now), steps, Elapse(d));
    Snoc(Start(now), steps + [Elapse(d)], ResetStep(cfg));
    var more := [Elapse(d), ResetStep(cfg)];
    assert steps + more == steps + [Elapse(d)] + [ResetStep(cfg)];
    assert FiresEarly(now, steps + more, id);
  }

  /** Exactly when a pending timer can fire within its idle timeout of a reset: in every reachable state, it can without
      a further shutdown if and only if a shutdown has taken it out of the table already and its timeout is positive. */
  lemma {:induction false} FiresEarlyIffDoomed(now: int, steps: seq<Step>, id: nat)
    requires Legal(Start(now), steps)
    requires id < |Exec(Start(now), steps).heap| && Exec(Start(now), steps).heap[id].status == Pending
    ensures var t := Exec(Start(now), steps);
            CanFireEarly(now, steps, id) <==> id in t.doomed && t.heap[id].cfg.idleTimeout > 0
  {
    var t := Exec(Start(now), steps);
    if id in t.doomed && t.heap[id].cfg.idleTimeout > 0 {
      DoomedFiresEarly(now, steps, id);
    } else {
      forall more | SwapFree(more)
        ensures !FiresEarly(now, steps + more, id)
      {
        if FiresEarly(now, steps + more, id) {
          SwapFreeKeeps(now, steps, more, id);
          Snoc(Start(now), steps + more, FireStep(id));
          FiresInTime(now, steps + more, id);
          ResetIsPast(now, steps + more, t.heap[id].cfg.container);
          assert false;
        }
      }
    }
  }
}
