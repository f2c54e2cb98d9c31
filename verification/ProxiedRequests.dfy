/** What a proxied request does for the idle timer, over whole lifecycle runs: if it finds the port open it resets the timer
    before it ends, and if not it heads for a start. */
module ProxiedRequests {
  import opened Tally
  import opened Services
  import opened Lifecycle
  import A = LifecycleAccounting
  import T = IdleTimers
  import LT = LifecycleTimers

  /** What a thread can have been through. */
  datatype Milestone = SawOpen | SawClosed | ResetTimer | SoughtStart

  predicate Reaches(pc: Pc, m: Milestone) {
    match m
    case SawOpen => pc.UnlockProbe? && pc.open
    case SawClosed => pc.UnlockProbe? && !pc.open
    case ResetTimer => pc.ResetIdle?
    case SoughtStart => pc.Acquire?
  }

  /** Step `n` of the run is a step of thread `i` from where it reaches the milestone. */
  ghost predicate PassesAt(s0: State, steps: seq<Step>, i: nat, m: Milestone, n: nat) {
    && n < |steps| && steps[n].Run? && steps[n].i == i
    && i < |Exec(s0, steps[..n]).threads| && Reaches(Exec(s0, steps[..n]).threads[i].pc, m)
  }

  ghost predicate Passed(s0: State, steps: seq<Step>, i: nat, m: Milestone) {
    exists n: nat :: PassesAt(s0, steps, i, m, n)
  }

  lemma PassedMore(s0: State, steps: seq<Step>, i: nat, m: Milestone)
    requires steps != []
    ensures var before, last := steps[..|steps| - 1], steps[|steps| - 1];
            Passed(s0, steps, i, m) <==>
              || Passed(s0, before, i, m)
              || (last.Run? && last.i == i && i < |Exec(s0, before).threads| && Reaches(Exec(s0, before).threads[i].pc, m))
  {
    var k := |steps| - 1;
    var before := steps[..k];
    forall n: nat | n < k
      ensures PassesAt(s0, steps, i, m, n) <==> PassesAt(s0, before, i, m, n)
    {
      assert before[..n] == steps[..n];
    }
    if Passed(s0, steps, i, m) {
      var n: nat :| PassesAt(s0, steps, i, m, n);
      assert n < k ==> PassesAt(s0, before, i, m, n);
    }
    if Passed(s0, before, i, m) {
      var n: nat :| PassesAt(s0, before, i, m, n);
      assert PassesAt(s0, steps, i, m, n);
    }
    if steps[k].Run? && steps[k].i == i && i < |Exec(s0, before).threads| && Reaches(Exec(s0, before).threads[i].pc, m) {
      assert PassesAt(s0, steps, i, m, k);
    }
  }

  /** Which milestones a proxied request that stands at `pc` has passed. */
  predicate Record(pc: Pc, open: bool, closed: bool, reset: bool, sought: bool) {
    match pc
    case AcquireProbe => !open && !closed && !reset && !sought
    case LockProbe(_) => !open && !closed && !reset && !sought
    case Probe(_) => !open && !closed && !reset && !sought
    case UnlockProbe(_, _) => !open && !closed && !reset && !sought
    case ResetIdle => open && !closed && !reset && !sought
    case Acquire => !open && closed && !reset && !sought
    case Done => (open && !closed && reset && !sought) || (!open && closed && !reset && sought)
    case _ => !open && closed && !reset && sought
  }

  ghost predicate OnRecord(s0: State, steps: seq<Step>, i: nat, pc: Pc) {
    Record(pc, Passed(s0, steps, i, SawOpen), Passed(s0, steps, i, SawClosed), Passed(s0, steps, i, ResetTimer),
           Passed(s0, steps, i, SoughtStart))
  }

  lemma RecordNext(t: Thread, box: Box, lock: nat, cancelled: bool, choice: bool, open: bool, closed: bool, reset: bool,
                   sought: bool)
    requires t.role == Proxy && A.Routed(t) && !Finished(t) && Record(t.pc, open, closed, reset, sought)
    ensures Record(NextPc(t, box, lock, cancelled, choice), open || Reaches(t.pc, SawOpen), closed || Reaches(t.pc, SawClosed),
                   reset || Reaches(t.pc, ResetTimer), sought || Reaches(t.pc, SoughtStart))
  {
  }

  lemma AllPassedMore(s0: State, steps: seq<Step>, i: nat)
    requires steps != []
    ensures var before, last := steps[..|steps| - 1], steps[|steps| - 1];
            forall m :: Passed(s0, steps, i, m) <==>
              || Passed(s0, before, i, m)
              || (last.Run? && last.i == i && i < |Exec(s0, before).threads| && Reaches(Exec(s0, before).threads[i].pc, m))
  {
    forall m { PassedMore(s0, steps, i, m); }
  }

  /** A thread that does not exist has passed nothing. */
  lemma NewHasNoRecord(s0: State, steps: seq<Step>, i: nat)
    requires forall n: nat | n <= |steps| :: i >= |Exec(s0, steps[..n]).threads|
    ensures forall m :: !Passed(s0, steps, i, m)
  {
  }

  lemma {:induction false} ThreadsGrow(s0: State, steps: seq<Step>, n: nat)
    requires n <= |steps|
    ensures |Exec(s0, steps[..n]).threads| <= |Exec(s0, steps).threads|
  {
    if n < |steps| {
      ThreadsGrow(s0, steps[..|steps| - 1], n);
      StepGrows(Exec(s0, steps[..|steps| - 1]), steps[|steps| - 1]);
      assert steps[..|steps| - 1][..n] == steps[..n];
    } else {
      assert steps[..n] == steps;
    }
  }

  lemma {:induction false} RecordRun(now: int, boxes: map<string, Box>, steps: seq<Step>, i: nat)
    requires Legal(Boot(now, boxes), steps)
    requires var s := Exec(Boot(now, boxes), steps); i < |s.threads| && s.threads[i].role == Proxy
    ensures OnRecord(Boot(now, boxes), steps, i, Exec(Boot(now, boxes), steps).threads[i].pc)
  {
    var s0 := Boot(now, boxes);
    var before, step := steps[..|steps| - 1], steps[|steps| - 1];
    var s := Exec(s0, before);
    ThreadAfter(s, step, i);
    AllPassedMore(s0, steps, i);
    if i < |s.threads| {
      RecordRun(now, boxes, before, i);
      A.RoutedRun(now, boxes, before);
      var t := s.threads[i];
      if step.Run? && step.i == i {
        RecordNext(t, BoxOf(s, t.cfg.container), LockFor(s.locks, t.cfg.container, s.nextLock), s.cancelled, step.choice,
                   Passed(s0, before, i, SawOpen), Passed(s0, before, i, SawClosed), Passed(s0, before, i, ResetTimer),
                   Passed(s0, before, i, SoughtStart));
      }
    } else {
      forall n: nat | n <= |before| ensures i >= |Exec(s0, before[..n]).threads| { ThreadsGrow(s0, before, n); }
      NewHasNoRecord(s0, before, i);
    }
  }

  // The timer

  /** After step `n` of the run the container of `cfg` has exactly one pending timer, made for `cfg` in that step. */
  ghost predicate TimerRenewed(s0: State, steps: seq<Step>, n: nat, cfg: Config) {
    && n < |steps|
    && var before, after := Exec(s0, steps[..n]).table, Exec(s0, steps[..n + 1]).table;
    && after.now == before.now && |after.heap| == |before.heap| + 1
    && after.heap[|before.heap|] == T.Timer(cfg, before.now, T.Pending)
    && T.Live(after, cfg.container) == {|before.heap|}
  }

  lemma {:induction false} LegalFront(s: State, steps: seq<Step>, n: nat)
    requires Legal(s, steps) && n <= |steps|
    ensures Legal(s, steps[..n])
  {
    if n < |steps| {
      LegalFront(s, steps[..|steps| - 1], n);
      assert steps[..|steps| - 1][..n] == steps[..n];
    } else {
      assert steps[..n] == steps;
    }
  }

  lemma {:induction false} ConfigStays(s0: State, steps: seq<Step>, n: nat, i: nat)
    requires Legal(s0, steps) && n <= |steps| && i < |Exec(s0, steps[..n]).threads|
    ensures i < |Exec(s0, steps).threads| && Exec(s0, steps).threads[i].cfg == Exec(s0, steps[..n]).threads[i].cfg
  {
    if n < |steps| {
      var before, step := steps[..|steps| - 1], steps[|steps| - 1];
      assert before[..n] == steps[..n];
      ConfigStays(s0, before, n, i);
      StepGrows(Exec(s0, before), step);
      ThreadAfter(Exec(s0, before), step, i);
    } else {
      assert steps[..n] == steps;
    }
  }

  lemma TableOwned(now: int, boxes: map<string, Box>, steps: seq<Step>)
    requires Legal(Boot(now, boxes), steps)
    ensures T.Owned(Exec(Boot(now, boxes), steps).table)
  {
    LT.TimelineIsLegal(now, boxes, steps);
    T.OwnedRun(T.Start(now), LT.Timeline(Boot(now, boxes), steps));
  }

  lemma ResetEffect(s: State, i: nat, choice: bool)
    requires T.Owned(s.table) && s.table.doomed == {}
    requires i < |s.threads| && s.threads[i].pc.ResetIdle? && !s.threads[i].cfg.disableIdle
    ensures var t, t', cfg := s.table, RunThread(s, i, choice).table, s.threads[i].cfg;
            && t'.now == t.now && |t'.heap| == |t.heap| + 1 && t'.heap[|t.heap|] == T.Timer(cfg, t.now, T.Pending)
            && T.Live(t', cfg.container) == {|t.heap|}
  {
    T.OperationEffects(s.table, s.threads[i].cfg, "");
  }

  lemma ResetRenews(now: int, boxes: map<string, Box>, steps: seq<Step>, i: nat, n: nat)
    requires Legal(Boot(now, boxes), steps) && PassesAt(Boot(now, boxes), steps, i, ResetTimer, n)
    requires var s := Exec(Boot(now, boxes), steps[..n]); s.table.doomed == {} && !s.threads[i].cfg.disableIdle
    ensures TimerRenewed(Boot(now, boxes), steps, n, Exec(Boot(now, boxes), steps[..n]).threads[i].cfg)
  {
    var s0 := Boot(now, boxes);
    LegalFront(s0, steps, n);
    TableOwned(now, boxes, steps[..n]);
    ResetEffect(Exec(s0, steps[..n]), i, steps[n].choice);
    assert steps[..n + 1][..n] == steps[..n];
    assert Exec(s0, steps[..n + 1]) == RunThread(Exec(s0, steps[..n]), i, steps[n].choice);
  }

  /** A proxied request that has ended has either seen the port closed and headed for a start, or seen it open and reset the
      timer: unless its idle stop is disabled or shutdown was under way, that step left its container exactly one pending
      timer, made for its configuration at that moment. Which of the two it was is decided by what the probe saw. */
  lemma {:induction false} ProxyKeepsAwake(now: int, boxes: map<string, Box>, steps: seq<Step>, i: nat) returns (n: nat)
    requires Legal(Boot(now, boxes), steps)
    requires var s := Exec(Boot(now, boxes), steps); i < |s.threads| && s.threads[i].role == Proxy && s.threads[i].pc == Done
    ensures var s0 := Boot(now, boxes);
            && (Passed(s0, steps, i, SawOpen) <==> !Passed(s0, steps, i, SawClosed))
            && (Passed(s0, steps, i, SawClosed) <==> Passed(s0, steps, i, SoughtStart))
            && (Passed(s0, steps, i, SawOpen) <==> Passed(s0, steps, i, ResetTimer))
    ensures var s0 := Boot(now, boxes);
            var cfg := Exec(s0, steps).threads[i].cfg;
            Passed(s0, steps, i, SawOpen) ==>
              && PassesAt(s0, steps, i, ResetTimer, n)
              && (!cfg.disableIdle && Exec(s0, steps[..n]).table.doomed == {} ==> TimerRenewed(s0, steps, n, cfg))
  {
    var s0 := Boot(now, boxes);
    RecordRun(now, boxes, steps, i);
    n := 0;
    if Passed(s0, steps, i, ResetTimer) {
      n :| PassesAt(s0, steps, i, ResetTimer, n);
      ConfigStays(s0, steps, n, i);
      if !Exec(s0, steps).threads[i].cfg.disableIdle && Exec(s0, steps[..n]).table.doomed == {} {
        ResetRenews(now, boxes, steps, i, n);
      }
    }
  }
}
