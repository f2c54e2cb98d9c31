/** The methods of the process as runs of the lifecycle machine.

    A lifecycle state agrees with the process when it has the same timers and the same start locks and when the effects it has
    logged tell the same story, service by service and kind by kind, as the events that the process has recorded.
    Disappearances and startup timeouts are recorded by the process alone. */
module ProcessRefinement {
  import opened Tally
  import opened Services
  import opened EventHistory
  import opened Reconcile
  import opened Docknap
  import F = LifecycleSafety
  import L = Lifecycle
  import S = SyncTimers
  import T = IdleTimers

  datatype Note = Note(sub: string, kind: Kind)

  /** The event that goes with an effect. */
  function Echo(e: L.Effect): seq<Note> {
    match e
    case StartRequested(sub) => [Note(sub, Kind.StartRequested)]
    case StartFailed(sub) => [Note(sub, StartError)]
    case ReadyLogged(sub) => [Note(sub, BecameReady)]
    case IdleLogged(sub) => [Note(sub, IdleStopped)]
    case StoppedLogged(sub, _) => [Note(sub, Stopped)]
    case PausedLogged(sub, _) => [Note(sub, Paused)]
    case StopFailed(sub, _) => [Note(sub, StopError)]
    case _ => []
  }

  function EchoOf(e: Option<L.Effect>): seq<Note> {
    if e.Some? then Echo(e.value) else []
  }

  function Echoes(log: seq<L.Effect>): seq<Note> {
    if log == [] then [] else Echoes(log[..|log| - 1]) + Echo(log[|log| - 1])
  }

  function Told(entry: Entry): seq<Note> {
    if entry.event.kind == Disappeared || entry.event.kind == StartupTimeout then []
    else [Note(entry.sub, entry.event.kind)]
  }

  function Story(recorded: seq<Entry>): seq<Note> {
    if recorded == [] then [] else Story(recorded[..|recorded| - 1]) + Told(recorded[|recorded| - 1])
  }

  lemma StoryMore(recorded: seq<Entry>, entry: Entry)
    ensures Story(recorded + [entry]) == Story(recorded) + Told(entry)
  {
    assert (recorded + [entry])[..|recorded|] == recorded;
  }

  lemma EchoesMore(log: seq<L.Effect>, e: Option<L.Effect>)
    ensures Echoes(L.Append(log, e)) == Echoes(log) + EchoOf(e)
  {
    if e.Some? {
      assert (log + [e.value])[..|log|] == log;
    }
  }

  /** The lifecycle state is that of a process with these timers, start locks and recorded events. */
  ghost predicate Agrees(s: L.State, timers: T.Table, locks: map<string, nat>, recorded: seq<Entry>) {
    s.table == timers && s.locks == locks && Echoes(s.log) == Story(recorded)
  }

  // One thread by itself

  /** What a process sees of one thread that runs alone: the thread, its container, the timers, the story so far and the
      waiters it has spawned. */
  datatype Solo = Solo(t: L.Thread, box: L.Box, table: T.Table, story: seq<Note>, spawned: seq<L.Thread>)

  /** A step that needs no start lock. */
  predicate CanGo(w: Solo, choice: bool) {
    && !L.Finished(w.t) && (L.LockOpOf(w.t.pc).KeepLock? || L.LockOpOf(w.t.pc).FreeLock?)
    && (w.t.pc.Waiting? ==> choice)
    && (choice ==> L.DockerAccepts(w.t, w.box))
  }

  function Go(w: Solo, choice: bool): Solo {
    Solo(w.t.(pc := L.NextPc(w.t, w.box, 0, false, choice)),
         L.BoxAfter(w.t, w.box, choice),
         if w.t.pc.ResetIdle? then T.Reset(w.table, w.t.cfg)
         else if w.t.pc.TakeTimer? then T.Take(w.table, w.t.cfg.container)
         else w.table,
         w.story + EchoOf(L.EffectOf(w.t, w.box, choice)),
         L.Append(w.spawned, L.SpawnOf(w.t)))
  }

  /** What the environment decides, step by step. */
  datatype Script = End | Then(choice: bool, rest: Script)

  function Play(w: Solo, script: Script): Solo
    decreases script
  {
    match script
    case End => w
    case Then(choice, rest) => Play(Go(w, choice), rest)
  }

  predicate Playable(w: Solo, script: Script)
    decreases script
  {
    match script
    case End => true
    case Then(choice, rest) => CanGo(w, choice) && Playable(Go(w, choice), rest)
  }

  /** `w` is what a process sees of thread `i`; the waiters it has spawned stand behind the first `n` threads. */
  ghost predicate Shows(s: L.State, i: nat, n: nat, w: Solo, locks: map<string, nat>) {
    && i < n <= |s.threads| && s.threads[i] == w.t && L.BoxOf(s, w.t.cfg.container) == w.box
    && s.table == w.table && s.locks == locks && Echoes(s.log) == w.story && s.threads[n..] == w.spawned
  }

  lemma StepShows(s: L.State, i: nat, n: nat, w: Solo, locks: map<string, nat>, choice: bool)
    requires Shows(s, i, n, w, locks) && CanGo(w, choice)
    ensures L.Enabled(s, L.Run(i, choice)) && Shows(L.RunThread(s, i, choice), i, n, Go(w, choice), locks)
  {
    EchoesMore(s.log, L.EffectOf(w.t, w.box, choice));
  }

  /** A thread that runs alone is a run of the lifecycle. */
  lemma {:induction false} PlayShows(s0: L.State, steps: seq<L.Step>, s: L.State, i: nat, n: nat, w: Solo,
                                     locks: map<string, nat>, script: Script)
    returns (longer: seq<L.Step>, s': L.State)
    requires L.Legal(s0, steps) && L.Exec(s0, steps) == s && Shows(s, i, n, w, locks) && Playable(w, script)
    ensures L.Legal(s0, longer) && L.Exec(s0, longer) == s' && Shows(s', i, n, Play(w, script), locks)
    decreases script
  {
    longer, s' := steps, s;
    if script.Then? {
      StepShows(s, i, n, w, locks, script.choice);
      longer, s' := F.Play(s0, steps, s, L.Run(i, script.choice));
      longer, s' := PlayShows(s0, longer, s', i, n, Go(w, script.choice), locks, script.rest);
    }
  }

  function Alone(s: L.State, i: nat, recorded: seq<Entry>): Solo
    requires i < |s.threads|
  {
    Solo(s.threads[i], L.BoxOf(s, s.threads[i].cfg.container), s.table, Story(recorded), [])
  }

  /** `script` takes `w` to `end`. */
  ghost predicate Leads(w: Solo, script: Script, end: Solo) {
    Playable(w, script) && Play(w, script) == end
  }

  lemma Stay(w: Solo) returns (script: Script)
    ensures Leads(w, script, w)
  {
    script := End;
  }

  lemma OneMore(w: Solo, choice: bool, next: Solo, rest: Script, end: Solo) returns (script: Script)
    requires CanGo(w, choice) && Go(w, choice) == next && Leads(next, rest, end)
    ensures Leads(w, script, end)
  {
    script := Then(choice, rest);
  }

  function At(w: Solo, pc: L.Pc): Solo {
    w.(t := w.t.(pc := pc))
  }

  function Telling(w: Solo, kind: Kind): Solo {
    w.(story := w.story + [Note(w.t.cfg.subdomain, kind)])
  }

  // Stops

  lemma CountedStopPlays(w: Solo) returns (script: Script)
    requires w.t.pc == L.CountStop
    ensures Leads(w, script, At(w, L.Done))
  {
    script := Stay(At(w, L.Done));
    script := OneMore(w, true, At(w, L.Done), script, At(w, L.Done));
  }

  lemma LoggedStopPlays(w: Solo, frozen: bool) returns (script: Script)
    requires w.t.pc == L.LogStopped(frozen)
    ensures Leads(w, script, At(Telling(w, if frozen then Paused else Stopped), L.Done))
  {
    var next := At(Telling(w, if frozen then Paused else Stopped), L.CountStop);
    assert Go(w, true) == next;
    script := CountedStopPlays(next);
    script := OneMore(w, true, next, script, At(next, L.Done));
  }

  function Outcome(cfg: Config, failed: bool): Kind {
    if failed then StopError else if cfg.strategy == PauseStrategy then Paused else Stopped
  }

  lemma FailedStopPlays(w: Solo) returns (script: Script)
    requires w.t.pc == L.LogStopError
    ensures Leads(w, script, At(Telling(w, StopError), L.Done))
  {
    script := Stay(At(Telling(w, StopError), L.Done));
    script := OneMore(w, true, At(Telling(w, StopError), L.Done), script, At(Telling(w, StopError), L.Done));
  }

  lemma ClearedStopPlays(w: Solo) returns (script: Script)
    requires w.t.pc == L.ClearRuntime
    ensures Leads(w, script, At(Telling(w, Stopped), L.Done))
  {
    var next := At(w, L.LogStopped(false));
    script := LoggedStopPlays(next, false);
    script := OneMore(w, true, next, script, At(Telling(next, Stopped), L.Done));
  }

  function AnsweredPc(cfg: Config, failed: bool): L.Pc {
    if failed then L.LogStopError else if cfg.strategy == PauseStrategy then L.LogStopped(true) else L.ClearRuntime
  }

  /** The rest of a stop, once Docker has answered. */
  lemma AnsweredStopPlays(w: Solo, failed: bool) returns (script: Script)
    requires w.t.pc == AnsweredPc(w.t.cfg, failed)
    ensures Leads(w, script, At(Telling(w, Outcome(w.t.cfg, failed)), L.Done))
  {
    if failed {
      script := FailedStopPlays(w);
    } else if w.t.cfg.strategy == PauseStrategy {
      script := LoggedStopPlays(w, true);
    } else {
      script := ClearedStopPlays(w);
    }
  }

  function BoxAfterStop(cfg: Config, box: L.Box, failed: bool): L.Box {
    if failed then box else if cfg.strategy == PauseStrategy then L.Frozen else L.Down
  }

  predicate StopPossible(cfg: Config, box: L.Box, failed: bool) {
    failed || cfg.strategy == StopStrategy || box == L.Up
  }

  function Answered(w: Solo, failed: bool): Solo {
    At(w, AnsweredPc(w.t.cfg, failed)).(box := BoxAfterStop(w.t.cfg, w.box, failed))
  }

  lemma StopCallGoes(w: Solo, failed: bool)
    requires w.t.pc == L.StopCall && StopPossible(w.t.cfg, w.box, failed)
    ensures CanGo(w, !failed) && Go(w, !failed) == Answered(w, failed)
  {
  }

  lemma StopCallPlays(w: Solo, failed: bool) returns (script: Script)
    requires w.t.pc == L.StopCall && StopPossible(w.t.cfg, w.box, failed)
    ensures Leads(w, script, At(Telling(Answered(w, failed), Outcome(w.t.cfg, failed)), L.Done))
  {
    StopCallGoes(w, failed);
    script := AnsweredStopPlays(Answered(w, failed), failed);
    script := OneMore(w, !failed, Answered(w, failed), script,
                      At(Telling(Answered(w, failed), Outcome(w.t.cfg, failed)), L.Done));
  }

  /** Where a stop ends. */
  function Ended(w: Solo, failed: bool): Solo {
    At(Telling(w, Outcome(w.t.cfg, failed)), L.Done)
    .(box := BoxAfterStop(w.t.cfg, w.box, failed), table := T.Take(w.table, w.t.cfg.container))
  }

  lemma StopPlays(w: Solo, failed: bool) returns (script: Script)
    requires w.t.pc == L.TakeTimer && StopPossible(w.t.cfg, w.box, failed)
    ensures Leads(w, script, Ended(w, failed))
  {
    var next := At(w, L.StopCall).(table := T.Take(w.table, w.t.cfg.container));
    assert Go(w, true) == next;
    script := StopCallPlays(next, failed);
    script := OneMore(w, true, next, script, Ended(w, failed));
  }

  lemma LoggedIdlePlays(w: Solo, failed: bool) returns (script: Script)
    requires w.t.pc == L.LogIdle && StopPossible(w.t.cfg, w.box, failed)
    ensures Leads(w, script, Ended(Telling(w, IdleStopped), failed))
  {
    var taking := At(Telling(w, IdleStopped), L.TakeTimer);
    assert Go(w, true) == taking;
    script := StopPlays(taking, failed);
    script := OneMore(w, true, taking, script, Ended(taking, failed));
  }

  /** The callback of a timer. */
  lemma IdlePlays(w: Solo, failed: bool) returns (script: Script)
    requires w.t.pc == L.CountIdle && StopPossible(w.t.cfg, w.box, failed)
    ensures Leads(w, script, Ended(Telling(w, IdleStopped), failed))
  {
    var logging := At(w, L.LogIdle);
    assert Go(w, true) == logging;
    script := LoggedIdlePlays(logging, failed);
    script := OneMore(w, true, logging, script, Ended(Telling(logging, IdleStopped), failed));
  }

  lemma StopTold(recorded: seq<Entry>, now: int, cfg: Config, failure: Option<string>)
    ensures Story(recorded + [Entry(cfg.subdomain, StopEvent(now, cfg, failure))]) ==
            Story(recorded) + [Note(cfg.subdomain, Outcome(cfg, failure.Some?))]
  {
    StoryMore(recorded, Entry(cfg.subdomain, StopEvent(now, cfg, failure)));
  }

  /** stopContainerWithReason is a run of one thread: the same timer goes, the same event is recorded, and the container is
      stopped or paused exactly if Docker obeyed. */
  lemma StopRefinesLifecycle(s: L.State, i: nat, now: int, failure: Option<string>,
                             timers: T.Table, locks: map<string, nat>, recorded: seq<Entry>)
    returns (more: seq<L.Step>, s': L.State)
    requires Agrees(s, timers, locks, recorded) && i < |s.threads| && s.threads[i].pc == L.TakeTimer
    requires var cfg := s.threads[i].cfg;
             failure == None ==> cfg.strategy == StopStrategy || L.BoxOf(s, cfg.container) == L.Up
    ensures L.Legal(s, more) && L.Exec(s, more) == s'
    ensures var cfg := s.threads[i].cfg;
            && i < |s'.threads| && s'.threads[i] == s.threads[i].(pc := L.Done)
            && Agrees(s', T.Take(timers, cfg.container), locks,
                      recorded + [Entry(cfg.subdomain, StopEvent(now, cfg, failure))])
            && L.BoxOf(s', cfg.container) ==
               (if failure.Some? then L.BoxOf(s, cfg.container)
                else if cfg.strategy == PauseStrategy then L.Frozen else L.Down)
  {
    var w := Alone(s, i, recorded);
    var script := StopPlays(w, failure.Some?);
    StopTold(recorded, now, w.t.cfg, failure);
    more, s' := PlayShows(s, [], s, i, |s.threads|, w, locks, script);
  }

  /** A timer's callback is a run: the firing, the idle stop, then the stop. */
  lemma FireRefinesLifecycle(s: L.State, id: nat, failure: Option<string>,
                             timers: T.Table, locks: map<string, nat>, recorded: seq<Entry>)
    returns (more: seq<L.Step>, s': L.State)
    requires Agrees(s, timers, locks, recorded) && T.Enabled(timers, T.FireStep(id))
    requires var cfg := timers.heap[id].cfg;
             failure == None ==> cfg.strategy == StopStrategy || L.BoxOf(s, cfg.container) == L.Up
    ensures L.Legal(s, more) && L.Exec(s, more) == s'
    ensures var cfg := timers.heap[id].cfg;
            Agrees(s', T.Take(T.Apply(timers, T.FireStep(id)), cfg.container), locks,
                   recorded + FireEvents(timers.now, cfg, failure))
  {
    var cfg := timers.heap[id].cfg;
    var w := Fired(s, id, recorded);
    FireShows(s, id, timers, locks, recorded);
    more, s' := F.Play(s, [], s, L.Fire(id));
    var script := IdlePlays(w, failure.Some?);
    IdleTold(recorded, timers.now, cfg, failure);
    more, s' := PlayShows(s, more, s', |s.threads|, |s.threads| + 1, w, locks, script);
  }

  /** The thread of a timer that has just fired. */
  function Fired(s: L.State, id: nat, recorded: seq<Entry>): Solo
    requires id < |s.table.heap|
  {
    var cfg := s.table.heap[id].cfg;
    Solo(L.Thread(L.IdleStop, cfg, L.CountIdle), L.BoxOf(s, cfg.container), T.Apply(s.table, T.FireStep(id)),
         Story(recorded), [])
  }

  lemma FireShows(s: L.State, id: nat, timers: T.Table, locks: map<string, nat>, recorded: seq<Entry>)
    requires Agrees(s, timers, locks, recorded) && T.Enabled(timers, T.FireStep(id))
    ensures Shows(L.Apply(s, L.Fire(id)), |s.threads|, |s.threads| + 1, Fired(s, id, recorded), locks)
  {
  }

  lemma IdleTold(recorded: seq<Entry>, now: int, cfg: Config, failure: Option<string>)
    ensures Story(recorded + FireEvents(now, cfg, failure)) ==
            Story(recorded) + [Note(cfg.subdomain, IdleStopped)] + [Note(cfg.subdomain, Outcome(cfg, failure.Some?))]
  {
    var idle, stop := Entry(cfg.subdomain, Event(now, IdleStopped, None)), Entry(cfg.subdomain, StopEvent(now, cfg, failure));
    StoryMore(recorded, idle);
    StopTold(recorded + [idle], now, cfg, failure);
    Regroup(recorded, [idle], [stop]);
  }

  // Starts

  /** Where a start ends: about to give the lock back, with a waiter or with a start error. */
  function Started(w: Solo, failed: bool): Solo
    requires L.Crit(w.t.pc).Some?
  {
    var end := At(w, L.Unlock(L.Crit(w.t.pc).value));
    if failed then Telling(end, StartError) else end.(spawned := w.spawned + [L.Thread(L.Waiter, w.t.cfg, L.Waiting)])
  }

  lemma SpawnPlays(w: Solo) returns (script: Script)
    requires w.t.pc.Spawn?
    ensures Leads(w, script, Started(w, false))
  {
    script := Stay(Started(w, false));
    script := OneMore(w, true, Started(w, false), script, Started(w, false));
  }

  lemma StartErrorPlays(w: Solo) returns (script: Script)
    requires w.t.pc.LogStartError?
    ensures Leads(w, script, Started(w, true))
  {
    assert Go(w, true) == Started(w, true);
    script := Stay(Started(w, true));
    script := OneMore(w, true, Started(w, true), script, Started(w, true));
  }

  lemma ClearBootPlays(w: Solo) returns (script: Script)
    requires w.t.pc.ClearBoot?
    ensures Leads(w, script, Started(w, true))
  {
    var next := At(w, L.LogStartError(w.t.pc.lock));
    script := StartErrorPlays(next);
    script := OneMore(w, true, next, script, Started(w, true));
  }

  predicate StartPossible(w: Solo)
    requires F.Committed(w.t.pc)
  {
    if w.t.pc.paused then w.t.cfg.strategy == PauseStrategy && w.box == L.Frozen else w.box == L.Down
  }

  function Issued(w: Solo, failed: bool): Solo
    requires w.t.pc.Issue?
  {
    At(w, if failed then L.ClearBoot(w.t.pc.lock) else L.Spawn(w.t.pc.lock)).(box := if failed then w.box else L.Up)
  }

  lemma IssueGoes(w: Solo, failed: bool)
    requires w.t.pc.Issue? && StartPossible(w)
    ensures CanGo(w, !failed) && Go(w, !failed) == Issued(w, failed)
  {
  }

  lemma IssuePlays(w: Solo, failed: bool) returns (script: Script)
    requires w.t.pc.Issue? && StartPossible(w)
    ensures Leads(w, script, Started(Issued(w, failed), failed))
  {
    var next := Issued(w, failed);
    IssueGoes(w, failed);
    if failed {
      script := ClearBootPlays(next);
    } else {
      script := SpawnPlays(next);
    }
    script := OneMore(w, !failed, next, script, Started(next, failed));
  }

  function StartEnd(w: Solo, failed: bool): Solo
    requires L.Crit(w.t.pc).Some?
  {
    Started(Telling(w, Kind.StartRequested), failed).(box := if failed then w.box else L.Up)
  }

  lemma MarkPlays(w: Solo, failed: bool) returns (script: Script)
    requires w.t.pc.MarkBoot? && StartPossible(w)
    ensures Leads(w, script, Started(w, failed).(box := if failed then w.box else L.Up))
  {
    var issuing := At(w, L.Issue(w.t.pc.lock, w.t.pc.paused));
    script := IssuePlays(issuing, failed);
    script := OneMore(w, true, issuing, script, Started(w, failed).(box := if failed then w.box else L.Up));
  }

  lemma RequestPlays(w: Solo, failed: bool) returns (script: Script)
    requires w.t.pc.LogRequested? && StartPossible(w)
    ensures Leads(w, script, StartEnd(w, failed))
  {
    var marking := At(Telling(w, Kind.StartRequested), L.MarkBoot(w.t.pc.lock, w.t.pc.paused));
    assert Go(w, true) == marking;
    script := MarkPlays(marking, failed);
    script := OneMore(w, true, marking, script, StartEnd(w, failed));
  }

  lemma StartPlays(w: Solo, failed: bool) returns (script: Script)
    requires w.t.pc.CountStart? && StartPossible(w)
    ensures Leads(w, script, StartEnd(w, failed))
  {
    var logging := At(w, L.LogRequested(w.t.pc.lock, w.t.pc.paused));
    script := RequestPlays(logging, failed);
    script := OneMore(w, true, logging, script, StartEnd(logging, failed));
  }

  lemma InspectGoes(w: Solo)
    requires w.t.pc.Inspect? && Asleep(w.t.cfg, Some(w.box))
    ensures CanGo(w, true) && Go(w, true) == At(w, L.CountStart(w.t.pc.lock, w.box == L.Frozen))
  {
  }

  /** A start from the inspection on. */
  lemma InspectPlays(w: Solo, failed: bool) returns (script: Script)
    requires w.t.pc.Inspect? && Asleep(w.t.cfg, Some(w.box))
    ensures Leads(w, script, StartEnd(w, failed))
  {
    var next := At(w, L.CountStart(w.t.pc.lock, w.box == L.Frozen));
    InspectGoes(w);
    script := StartPlays(next, failed);
    script := OneMore(w, true, next, script, StartEnd(next, failed));
  }

  /** An inspection that fails or finds the container awake. */
  lemma AwakePlays(w: Solo, seen: bool) returns (script: Script)
    requires w.t.pc.Inspect? && !Asleep(w.t.cfg, if seen then Some(w.box) else None)
    ensures Leads(w, script, At(w, L.Unlock(w.t.pc.lock)))
  {
    script := Stay(At(w, L.Unlock(w.t.pc.lock)));
    script := OneMore(w, seen, At(w, L.Unlock(w.t.pc.lock)), script, At(w, L.Unlock(w.t.pc.lock)));
  }

  lemma RequestTold(recorded: seq<Entry>, now: int, cfg: Config)
    ensures Story(recorded + [Entry(cfg.subdomain, Event(now, Kind.StartRequested, None))]) ==
            Story(recorded) + [Note(cfg.subdomain, Kind.StartRequested)]
  {
    StoryMore(recorded, Entry(cfg.subdomain, Event(now, Kind.StartRequested, None)));
  }

  lemma Regroup(a: seq<Entry>, b: seq<Entry>, c: seq<Entry>)
    ensures a + (b + c) == (a + b) + c
  {
  }

  lemma StartTold(recorded: seq<Entry>, now: int, cfg: Config, failure: Option<string>)
    ensures Story(recorded + StartEvents(now, cfg, failure)) ==
            Story(recorded) + [Note(cfg.subdomain, Kind.StartRequested)]
            + (if failure.Some? then [Note(cfg.subdomain, StartError)] else [])
  {
    var requested := [Entry(cfg.subdomain, Event(now, Kind.StartRequested, None))];
    RequestTold(recorded, now, cfg);
    if failure.Some? {
      var refused := Entry(cfg.subdomain, Event(now, StartError, failure));
      Regroup(recorded, requested, [refused]);
      StoryMore(recorded + requested, refused);
    } else {
      Regroup(recorded, requested, []);
      assert (recorded + requested) + [] == recorded + requested;
    }
  }

  lemma NeededStart(s: L.State, i: nat, now: int, failure: Option<string>,
                    timers: T.Table, locks: map<string, nat>, recorded: seq<Entry>)
    returns (more: seq<L.Step>, s': L.State)
    requires Agrees(s, timers, locks, recorded) && i < |s.threads| && s.threads[i].pc.Inspect?
    requires Asleep(s.threads[i].cfg, Some(L.BoxOf(s, s.threads[i].cfg.container)))
    ensures L.Legal(s, more) && L.Exec(s, more) == s' && |s.threads| <= |s'.threads|
    ensures var t := s.threads[i];
            && s'.threads[i] == t.(pc := L.Unlock(t.pc.lock))
            && s'.threads[|s.threads|..] == (if failure == None then [L.Thread(L.Waiter, t.cfg, L.Waiting)] else [])
            && Agrees(s', timers, locks, recorded + StartEvents(now, t.cfg, failure))
  {
    var w := Alone(s, i, recorded);
    var script := InspectPlays(w, failure.Some?);
    StartTold(recorded, now, w.t.cfg, failure);
    more, s' := PlayShows(s, [], s, i, |s.threads|, w, locks, script);
  }

  /** startContainer under its lock is a run of one thread: the same events, and a waiter exactly if one is to be spawned. */
  lemma StartRefinesLifecycle(s: L.State, i: nat, now: int, box: Option<L.Box>, failure: Option<string>,
                              timers: T.Table, locks: map<string, nat>, recorded: seq<Entry>)
    returns (more: seq<L.Step>, s': L.State)
    requires Agrees(s, timers, locks, recorded) && i < |s.threads| && s.threads[i].pc.Inspect?
    requires box == None || box == Some(L.BoxOf(s, s.threads[i].cfg.container))
    ensures L.Legal(s, more) && L.Exec(s, more) == s' && |s.threads| <= |s'.threads|
    ensures var t := s.threads[i];
            && s'.threads[i] == t.(pc := L.Unlock(t.pc.lock))
            && s'.threads[|s.threads|..] ==
               (if Asleep(t.cfg, box) && failure == None then [L.Thread(L.Waiter, t.cfg, L.Waiting)] else [])
            && Agrees(s', timers, locks, recorded + if Asleep(t.cfg, box) then StartEvents(now, t.cfg, failure) else [])
  {
    if Asleep(s.threads[i].cfg, box) {
      more, s' := NeededStart(s, i, now, failure, timers, locks, recorded);
    } else {
      var w := Alone(s, i, recorded);
      var script := AwakePlays(w, box.Some?);
      assert recorded + [] == recorded;
      more, s' := PlayShows(s, [], s, i, |s.threads|, w, locks, script);
    }
  }

  // Waiters

  lemma BroadcastPlays(w: Solo) returns (script: Script)
    requires w.t.pc == L.Broadcast
    ensures Leads(w, script, At(w, L.Done))
  {
    script := Stay(At(w, L.Done));
    script := OneMore(w, true, At(w, L.Done), script, At(w, L.Done));
  }

  lemma LoggedReadyPlays(w: Solo) returns (script: Script)
    requires w.t.pc == L.LogReady
    ensures Leads(w, script, At(Telling(w, BecameReady), L.Done))
  {
    var sending := At(Telling(w, BecameReady), L.Broadcast);
    assert Go(w, true) == sending;
    script := BroadcastPlays(sending);
    script := OneMore(w, true, sending, script, At(sending, L.Done));
  }

  lemma PublishPlays(w: Solo) returns (script: Script)
    requires w.t.pc == L.PublishReady
    ensures Leads(w, script, At(Telling(w, BecameReady), L.Done))
  {
    script := LoggedReadyPlays(At(w, L.LogReady));
    script := OneMore(w, true, At(w, L.LogReady), script, At(Telling(w, BecameReady), L.Done));
  }

  lemma ObservedPlays(w: Solo) returns (script: Script)
    requires w.t.pc == L.ObserveDuration
    ensures Leads(w, script, At(Telling(w, BecameReady), L.Done))
  {
    script := PublishPlays(At(w, L.PublishReady));
    script := OneMore(w, true, At(w, L.PublishReady), script, At(Telling(w, BecameReady), L.Done));
  }

  lemma ReadyPlays(w: Solo) returns (script: Script)
    requires w.t.pc == L.Waiting
    ensures Leads(w, script, At(Telling(w, BecameReady), L.Done))
  {
    script := ObservedPlays(At(w, L.ObserveDuration));
    script := OneMore(w, true, At(w, L.ObserveDuration), script, At(Telling(w, BecameReady), L.Done));
  }

  /** The end of waitForReady is a run of its waiter. */
  lemma ReadyRefinesLifecycle(s: L.State, i: nat, now: int, timers: T.Table, locks: map<string, nat>, recorded: seq<Entry>)
    returns (more: seq<L.Step>, s': L.State)
    requires Agrees(s, timers, locks, recorded) && i < |s.threads| && s.threads[i].pc == L.Waiting
    ensures L.Legal(s, more) && L.Exec(s, more) == s' && i < |s'.threads| && s'.threads[i].pc == L.Done
    ensures Agrees(s', timers, locks, recorded + [Entry(s.threads[i].cfg.subdomain, Event(now, BecameReady, None))])
  {
    var w := Alone(s, i, recorded);
    var script := ReadyPlays(w);
    StoryMore(recorded, Entry(w.t.cfg.subdomain, Event(now, BecameReady, None)));
    more, s' := PlayShows(s, [], s, i, |s.threads|, w, locks, script);
  }

  // Single critical sections

  /** acquireStartLock is the lookup step of a thread that wants the lock. */
  lemma AcquireRefinesLifecycle(s: L.State, i: nat, timers: T.Table, locks: map<string, nat>, nextLock: nat,
                                recorded: seq<Entry>)
    requires Agrees(s, timers, locks, recorded) && s.nextLock == nextLock
    requires i < |s.threads| && (s.threads[i].pc == L.Acquire || s.threads[i].pc == L.AcquireProbe)
    ensures var c := s.threads[i].cfg.container;
            var s', lock := L.RunThread(s, i, true), L.LockFor(locks, c, nextLock);
            && L.Enabled(s, L.Run(i, true)) && L.Grip(s'.threads[i].pc) == Some(lock)
            && Agrees(s', timers, locks[c := lock], recorded)
            && s'.nextLock == nextLock + if c in locks then 0 else 1
  {
  }

  /** resetIdleTimer is the reset step of a proxied request. */
  lemma ResetRefinesLifecycle(s: L.State, i: nat, timers: T.Table, locks: map<string, nat>, recorded: seq<Entry>)
    requires Agrees(s, timers, locks, recorded) && i < |s.threads| && s.threads[i].pc == L.ResetIdle
    ensures L.Enabled(s, L.Run(i, true))
    ensures Agrees(L.RunThread(s, i, true), T.Reset(timers, s.threads[i].cfg), locks, recorded)
  {
  }

  // Syncs

  function ArmSteps(cfgs: seq<Config>): seq<L.Step> {
    if cfgs == [] then [] else ArmSteps(cfgs[..|cfgs| - 1]) + [L.ArmIdle(cfgs[|cfgs| - 1])]
  }

  lemma ExecMore(s: L.State, steps: seq<L.Step>, step: L.Step)
    requires L.Legal(s, steps) && L.Enabled(L.Exec(s, steps), step)
    ensures L.Legal(s, steps + [step]) && L.Exec(s, steps + [step]) == L.Apply(L.Exec(s, steps), step)
  {
    assert (steps + [step])[..|steps|] == steps;
  }

  lemma {:induction false} ArmsRefine(s: L.State, first: seq<L.Step>, cfgs: seq<Config>)
    requires L.Legal(s, first)
    ensures L.Legal(s, first + ArmSteps(cfgs))
    ensures L.Exec(s, first + ArmSteps(cfgs)) == L.Exec(s, first).(table := S.ArmAll(L.Exec(s, first).table, cfgs))
  {
    if cfgs == [] {
      assert first + [] == first;
    } else {
      var front, cfg := cfgs[..|cfgs| - 1], cfgs[|cfgs| - 1];
      ArmsRefine(s, first, front);
      ExecMore(s, first + ArmSteps(front), L.ArmIdle(cfg));
      assert first + ArmSteps(cfgs) == (first + ArmSteps(front)) + [L.ArmIdle(cfg)];
    }
  }

  lemma {:induction false} DeparturesUntold(now: int, known: Configs, dropped: seq<string>, recorded: seq<Entry>)
    ensures Story(recorded + Departures(now, known, dropped)) == Story(recorded)
  {
    if dropped == [] {
      assert recorded + [] == recorded;
    } else {
      var front, name := dropped[..|dropped| - 1], dropped[|dropped| - 1];
      var earlier := Departures(now, known, front);
      DeparturesUntold(now, known, front, recorded);
      if name in known {
        var entry := Entry(known[name].subdomain, Event(now, Disappeared, None));
        Regroup(recorded, earlier, [entry]);
        StoryMore(recorded + earlier, entry);
      } else {
        assert earlier + [] == earlier;
      }
    }
  }

  /** A sync is one disappearance step and a number of arming steps of the lifecycle: it changes the timers and the start
      locks exactly as they do, tells nothing but disappearances, and changes nothing else of the lifecycle's state. */
  lemma SyncRefinesLifecycle(s: L.State, parse: Parser, inspect: Inspector, w: Whole, known: Configs, dropped: seq<string>,
                             list: Listing)
    requires Agrees(s, w.timers, w.maps.locks, w.recorded) && forall name | name in dropped :: name in known
    ensures var armed := S.ToArm(parse, DropEach(w, known, dropped).maps.configs, list);
            var steps := [L.Disappear(dropped)] + ArmSteps(armed);
            var after := Synced(parse, inspect, w, known, dropped, list);
            && L.Legal(s, steps)
            && L.Exec(s, steps) == s.(table := after.timers, locks := after.maps.locks, torn := L.Exec(s, steps).torn)
            && Agrees(L.Exec(s, steps), after.timers, after.maps.locks, after.recorded)
  {
    var armed := S.ToArm(parse, DropEach(w, known, dropped).maps.configs, list);
    DropEachParts(w, known, dropped);
    MergeAllParts(parse, inspect, DropEach(w, known, dropped).maps, list);
    assert [] + [L.Disappear(dropped)] == [L.Disappear(dropped)];
    ExecMore(s, [], L.Disappear(dropped));
    ArmsRefine(s, [L.Disappear(dropped)], armed);
    assert L.Exec(s, [L.Disappear(dropped)]).locks == s.locks - NamesOf(dropped);
    DeparturesUntold(w.timers.now, known, dropped, w.recorded);
  }
}
