/** The timer table inside the lifecycle: whatever the threads do, the table goes through a legal run of
    its own, so the timer guarantees hold in every lifecycle run. */
module LifecycleTimers {
  import opened Tally
  import opened Services
  import opened Lifecycle
  import T = IdleTimers

  function Takes(names: seq<string>): seq<T.Step> {
    if names == [] then [] else Takes(names[..|names| - 1]) + [T.TakeStep(names[|names| - 1])]
  }

  /** The timer operations of one lifecycle step. */
  function TimerSteps(s: State, step: Step): seq<T.Step> {
    match step
    case Tick(d) => [T.Elapse(d)]
    case Fire(id) => [T.FireStep(id)]
    case ArmIdle(cfg) => [T.ArmStep(cfg)]
    case Disappear(names) => Takes(names)
    case SwapTimers => [T.SwapStep]
    case HaltTimer(id) => [T.HaltStep(id)]
    case Run(i, _) =>
      if i < |s.threads| && s.threads[i].pc.ResetIdle? then [T.ResetStep(s.threads[i].cfg)]
      else if i < |s.threads| && s.threads[i].pc.TakeTimer? then [T.TakeStep(s.threads[i].cfg.container)]
      else []
    case _ => []
  }

  function Timeline(s: State, steps: seq<Step>): seq<T.Step> {
    if steps == [] then []
    else Timeline(s, steps[..|steps| - 1]) + TimerSteps(Exec(s, steps[..|steps| - 1]), steps[|steps| - 1])
  }

  lemma {:induction false} TakesRun(t: T.Table, steps: seq<T.Step>, names: seq<string>, all: seq<T.Step>)
    requires T.Legal(t, steps) && all == steps + Takes(names)
    ensures T.Legal(t, all) && T.Exec(t, all) == TakeAll(T.Exec(t, steps), names)
  {
    if names == [] {
      assert all == steps;
    } else {
      var init, last := names[..|names| - 1], T.TakeStep(names[|names| - 1]);
      var before := steps + Takes(init);
      TakesRun(t, steps, init, before);
      assert all == before + [last];
      T.Snoc(t, before, last);
      assert T.Enabled(T.Exec(t, before), last);
    }
  }

  /** `more` are the timer operations that take one table to the next, at most one of them. */
  ghost predicate AtMostOne(t: T.Table, more: seq<T.Step>, t': T.Table) {
    if more == [] then t' == t else more == [more[0]] && T.Enabled(t, more[0]) && t' == T.Apply(t, more[0])
  }

  lemma ThreadTable(s: State, i: nat, choice: bool)
    requires i < |s.threads|
    ensures AtMostOne(s.table, TimerSteps(s, Run(i, choice)), RunThread(s, i, choice).table)
  {
    if s.threads[i].pc.ResetIdle? {
      assert TimerSteps(s, Run(i, choice)) == [T.ResetStep(s.threads[i].cfg)];
    } else if s.threads[i].pc.TakeTimer? {
      assert TimerSteps(s, Run(i, choice)) == [T.TakeStep(s.threads[i].cfg.container)];
    } else {
      assert TimerSteps(s, Run(i, choice)) == [];
    }
  }

  lemma EnvironmentTable(s: State, step: Step)
    requires Enabled(s, step) && !step.Run? && !step.Disappear?
    ensures AtMostOne(s.table, TimerSteps(s, step), Apply(s, step).table)
  {
  }

  lemma OneProjects(t: T.Table, done: seq<T.Step>, now: T.Table, more: seq<T.Step>, next: T.Table)
    requires T.Legal(t, done) && T.Exec(t, done) == now && AtMostOne(now, more, next)
    ensures T.Legal(t, done + more) && T.Exec(t, done + more) == next
  {
    if more == [] {
      assert done + more == done;
    } else {
      T.Snoc(t, done, more[0]);
    }
  }

  lemma StepProjects(t: T.Table, done: seq<T.Step>, s: State, step: Step)
    requires T.Legal(t, done) && T.Exec(t, done) == s.table && Enabled(s, step)
    ensures T.Legal(t, done + TimerSteps(s, step)) && T.Exec(t, done + TimerSteps(s, step)) == Apply(s, step).table
  {
    var more := TimerSteps(s, step);
    if step.Disappear? {
      TakesRun(t, done, step.names, done + more);
    } else {
      if step.Run? {
        ThreadTable(s, step.i, step.choice);
      } else {
        EnvironmentTable(s, step);
      }
      OneProjects(t, done, s.table, more, Apply(s, step).table);
    }
  }

  lemma {:induction false} TimelineIsLegal(now: int, boxes: map<string, Box>, steps: seq<Step>)
    requires Legal(Boot(now, boxes), steps)
    ensures var s := Boot(now, boxes);
            && T.Legal(T.Start(now), Timeline(s, steps))
            && T.Exec(T.Start(now), Timeline(s, steps)) == Exec(s, steps).table
  {
    if steps != [] {
      var s := Boot(now, boxes);
      var before := steps[..|steps| - 1];
      TimelineIsLegal(now, boxes, before);
      StepProjects(T.Start(now), Timeline(s, before), Exec(s, before), steps[|steps| - 1]);
    }
  }

  // Where the timers of a lifecycle run come from

  /** The configuration for which a step creates a timer: an arm's own one, or that of the request that resets. */
  function TimedBy(s: State, step: Step): Option<Config> {
    match step
    case ArmIdle(cfg) => Some(cfg)
    case Run(i, _) => if i < |s.threads| && s.threads[i].pc.ResetIdle? then Some(s.threads[i].cfg) else None
    case _ => None
  }

  /** Step `n` of the run has created timer `id`. */
  ghost predicate Created(s0: State, steps: seq<Step>, n: nat, id: nat) {
    && n < |steps|
    && var t, before := Exec(s0, steps).table, Exec(s0, steps[..n]);
    && |before.table.heap| == id < |t.heap|
    && TimedBy(before, steps[n]) == Some(t.heap[id].cfg) && t.heap[id].created == before.table.now
  }

  ghost predicate SameTimers(t: T.Table, t': T.Table) {
    && |t.heap| <= |t'.heap|
    && forall i | 0 <= i < |t.heap| :: t'.heap[i].cfg == t.heap[i].cfg && t'.heap[i].created == t.heap[i].created
  }

  lemma {:induction false} TakeAllCreatesNone(t: T.Table, names: seq<string>)
    ensures SameTimers(t, TakeAll(t, names)) && |TakeAll(t, names).heap| == |t.heap|
  {
    if names != [] {
      TakeAllCreatesNone(t, names[..|names| - 1]);
    }
  }

  lemma StepCreates(s: State, step: Step)
    requires Enabled(s, step)
    ensures var t, t' := s.table, Apply(s, step).table;
            && SameTimers(t, t') && |t'.heap| <= |t.heap| + 1
            && (|t'.heap| > |t.heap| ==>
                  TimedBy(s, step) == Some(t'.heap[|t.heap|].cfg) && t'.heap[|t.heap|].created == t.now)
  {
    if step.Disappear? {
      TakeAllCreatesNone(s.table, step.names);
    } else if step.Run? {
      ThreadTable(s, step.i, step.choice);
    }
  }

  lemma {:induction false} TimerOrigin(now: int, boxes: map<string, Box>, steps: seq<Step>, id: nat) returns (n: nat)
    requires Legal(Boot(now, boxes), steps) && id < |Exec(Boot(now, boxes), steps).table.heap|
    ensures Created(Boot(now, boxes), steps, n, id)
  {
    var before, step := steps[..|steps| - 1], steps[|steps| - 1];
    var s := Exec(Boot(now, boxes), before);
    StepCreates(s, step);
    if id < |s.table.heap| {
      n := TimerOrigin(now, boxes, before, id);
      assert before[..n] == steps[..n];
    } else {
      n := |before|;
    }
  }

  /** In every reachable lifecycle state a pending timer outside the shutdown window is the stored one of its container. And
      when one fires, the idle timeout of the request or of the arm that created it has passed since then, and since
      the last request that reset it. */
  lemma LifecycleTimersSound(now: int, boxes: map<string, Box>, steps: seq<Step>, id: nat) returns (n: nat)
    requires Legal(Boot(now, boxes), steps)
    requires id < |Exec(Boot(now, boxes), steps).table.heap|
    ensures var t := Exec(Boot(now, boxes), steps).table;
            t.heap[id].status == T.Pending && id !in t.doomed ==>
              t.heap[id].cfg.container in t.idle && t.idle[t.heap[id].cfg.container] == id
    ensures Created(Boot(now, boxes), steps, n, id)
    ensures var s, origin := Exec(Boot(now, boxes), steps), Exec(Boot(now, boxes), steps[..n]);
            var cfg := TimedBy(origin, steps[n]).value;
            var last := T.LastReset(T.Start(now), Timeline(Boot(now, boxes), steps), cfg.container);
            Enabled(s, Fire(id)) ==>
              && s.table.now - origin.table.now >= cfg.idleTimeout
              && (id !in s.table.doomed && last.Some? ==> s.table.now - last.value >= cfg.idleTimeout)
  {
    var line := Timeline(Boot(now, boxes), steps);
    TimelineIsLegal(now, boxes, steps);
    T.TimerOwnership(now, line);
    n := TimerOrigin(now, boxes, steps, id);
    if Enabled(Exec(Boot(now, boxes), steps), Fire(id)) {
      T.Snoc(T.Start(now), line, T.FireStep(id));
      T.FiresInTime(now, line, id);
    }
  }
}
