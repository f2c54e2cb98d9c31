/** The process state shared by all handlers, timers and the sync loop, and the critical sections that change it.

    Each method is one critical section, or a sequence of them that nothing interrupts; the step machines of
    IdleTimers, Lifecycle and ReadySignals and the passes of Reconcile interleave them. The runtime's timer heap, lock
    objects, channels and clock are fields beside the source's own ones. */
module Docknap {
  import opened Tally
  import opened Services
  import opened EventHistory
  import opened Reconcile
  import T = IdleTimers
  import L = Lifecycle
  import S = SyncTimers
  import R = ReadySignals

  /** A cached address is good for this many seconds. */
  const IP_TTL: int := 30

  datatype ServiceState = ServiceState(state: string, readyChans: seq<nat>)

  /** What an inspection says, when it succeeds: whether the container runs, and when it started if that parses. */
  datatype Inspection = Inspection(running: bool, startedAt: Option<int>)

  type Inspector = string -> Option<Inspection>

  /** The maps that a disappearance clears and a merge fills. */
  datatype Maps = Maps(
    configs: Configs,
    states: States,
    locks: map<string, nat>,
    boots: map<string, int>,
    started: map<string, int>,
    ips: map<string, string>,
    ipTimes: map<string, int>)

  /** The maps without the services `subs` and their containers `names`. */
  function Without(m: Maps, subs: set<string>, names: set<string>): Maps {
    Maps(m.configs - subs, m.states - subs, m.locks - names, m.boots - subs, m.started - subs, m.ips - subs,
         m.ipTimes - subs)
  }

  lemma WithoutMore(m: Maps, subs: set<string>, names: set<string>, sub: string, name: string)
    ensures Without(Without(m, subs, names), {sub}, {name}) == Without(m, subs + {sub}, names + {name})
  {
    var a, b := Without(Without(m, subs, names), {sub}, {name}), Without(m, subs + {sub}, names + {name});
    assert a.configs == b.configs && a.states == b.states && a.locks == b.locks && a.boots == b.boots;
    assert a.started == b.started && a.ips == b.ips && a.ipTimes == b.ipTimes;
  }

  lemma WithoutNone(m: Maps)
    ensures Without(m, {}, {}) == m
  {
  }

  /** The start time that a sync takes over for a running container. */
  function StartedBySync(inspect: Inspector, c: ContainerInfo): Option<int> {
    if c.state == S.RUNNING && inspect(c.name).Some? then inspect(c.name).value.startedAt else None
  }

  /** Discovery also wants the inspection to find the container running. */
  function StartedByDiscovery(inspect: Inspector, c: ContainerInfo): Option<int> {
    if c.state == S.RUNNING && inspect(c.name).Some? && inspect(c.name).value.running then inspect(c.name).value.startedAt
    else None
  }

  function Timed(started: map<string, int>, sub: string, at: Option<int>): map<string, int> {
    if at.Some? then started[sub := at.value] else started
  }

  /** One entry of the list merged into the maps by a sync. */
  function Merge(parse: Parser, inspect: Inspector, m: Maps, c: ContainerInfo): Maps {
    match Parsed(parse, c)
    case None => m
    case Some(cfg) =>
      m.(configs := Register(parse, m.configs, c),
         states := Note(parse, m.states, c, true),
         started := Timed(m.started, cfg.subdomain, StartedBySync(inspect, c)))
  }

  function MergeAll(parse: Parser, inspect: Inspector, m: Maps, list: Listing): Maps {
    if list == [] then m else Merge(parse, inspect, MergeAll(parse, inspect, m, list[..|list| - 1]), list[|list| - 1])
  }

  /** One entry of the list taken over by discovery. */
  function Adopt(parse: Parser, inspect: Inspector, m: Maps, c: ContainerInfo): Maps {
    match Parsed(parse, c)
    case None => m
    case Some(cfg) =>
      m.(configs := Put(parse, m.configs, c),
         states := Note(parse, m.states, c, false),
         started := Timed(m.started, cfg.subdomain, StartedByDiscovery(inspect, c)))
  }

  function AdoptAll(parse: Parser, inspect: Inspector, m: Maps, list: Listing): Maps {
    if list == [] then m else Adopt(parse, inspect, AdoptAll(parse, inspect, m, list[..|list| - 1]), list[|list| - 1])
  }

  function AdoptTimer(parse: Parser, inspect: Inspector, t: T.Table, c: ContainerInfo): T.Table {
    if Parsed(parse, c).Some? && StartedByDiscovery(inspect, c).Some? then T.Arm(t, ConfigOf(parse, c)) else t
  }

  /** The timers that discovery arms, under their containers' names. */
  function AdoptTimers(parse: Parser, inspect: Inspector, t: T.Table, list: Listing): T.Table {
    if list == [] then t
    else AdoptTimer(parse, inspect, AdoptTimers(parse, inspect, t, list[..|list| - 1]), list[|list| - 1])
  }

  /** Container `c` is listed as running, and an inspection says that it has run since `at`; discovery also wants the inspection
      to say that it still runs. */
  ghost predicate RunsSince(inspect: Inspector, c: ContainerInfo, at: int, still: bool) {
    && c.state == "running" && inspect(c.name).Some? && inspect(c.name).value.startedAt == Some(at)
    && (still ==> inspect(c.name).value.running)
  }

  /** Discovery arms a timer under the container's name. */
  ghost predicate Armable(parse: Parser, inspect: Inspector, c: ContainerInfo, key: string) {
    && c.name == key && c.state == "running"
    && parse(c.labels).Some? && !parse(c.labels).value.disableIdle
    && exists at :: inspect(c.name) == Some(Inspection(true, Some(at)))
  }

  /** The timer of a listed container, made now. */
  ghost predicate TimerOf(parse: Parser, list: Listing, now: int, timer: T.Timer) {
    exists c | c in list :: parse(c.labels).Some? && timer == T.Timer(Named(parse(c.labels).value, c.name), now, T.Pending)
  }

  lemma ArmableIsStarted(parse: Parser, inspect: Inspector, c: ContainerInfo)
    ensures Armable(parse, inspect, c, c.name)
            <==> Parsed(parse, c).Some? && !Parsed(parse, c).value.disableIdle && StartedByDiscovery(inspect, c).Some?
  {
    if Parsed(parse, c).Some? && StartedByDiscovery(inspect, c).Some? {
      var seen := inspect(c.name).value;
      var at := seen.startedAt.value;
      assert seen == Inspection(true, Some(at));
      assert inspect(c.name) == Some(Inspection(true, Some(at)));
    }
  }

  /** Discovery, unlike a sync, arms every running container under its own name: those that are listed as running and that the
      inspection finds running since some time. The timers it makes are those of listed containers, and the others stay. */
  lemma {:induction false} DiscoveryArms(parse: Parser, inspect: Inspector, t: T.Table, list: Listing, key: string)
    ensures var after := AdoptTimers(parse, inspect, t, list);
            && (key in after.idle <==> key in t.idle || exists c | c in list :: Armable(parse, inspect, c, key))
            && t.heap <= after.heap && after.now == t.now
            && forall id | |t.heap| <= id < |after.heap| :: TimerOf(parse, list, t.now, after.heap[id])
  {
    if list != [] {
      var n := |list| - 1;
      assert list == list[..n] + [list[n]];
      DiscoveryArms(parse, inspect, t, list[..n], key);
      ArmableIsStarted(parse, inspect, list[n]);
      var before, after := AdoptTimers(parse, inspect, t, list[..n]), AdoptTimers(parse, inspect, t, list);
      assert list[n] in list;
      forall id | |t.heap| <= id < |after.heap|
        ensures TimerOf(parse, list, t.now, after.heap[id])
      {
        if id < |before.heap| {
          assert TimerOf(parse, list[..n], t.now, before.heap[id]);
        }
      }
    }
  }

  /** The merge of the maps is the merge of each of them, which Reconcile describes. */
  lemma {:induction false} MergeAllParts(parse: Parser, inspect: Inspector, m: Maps, list: Listing)
    ensures var a := MergeAll(parse, inspect, m, list);
            && a.configs == RegisterAll(parse, m.configs, list)
            && a.states == NoteAll(parse, m.states, list, true)
            && a.locks == m.locks && a.boots == m.boots && a.ips == m.ips && a.ipTimes == m.ipTimes
  {
    if list != [] {
      MergeAllParts(parse, inspect, m, list[..|list| - 1]);
    }
  }

  lemma {:induction false} AdoptAllParts(parse: Parser, inspect: Inspector, m: Maps, list: Listing)
    ensures var a := AdoptAll(parse, inspect, m, list);
            && a.configs == PutAll(parse, m.configs, list)
            && a.states == NoteAll(parse, m.states, list, false)
            && a.locks == m.locks && a.boots == m.boots && a.ips == m.ips && a.ipTimes == m.ipTimes
  {
    if list != [] {
      AdoptAllParts(parse, inspect, m, list[..|list| - 1]);
    }
  }

  /** Container `c` gives service `sub` the start time `at`. */
  ghost predicate Gives(parse: Parser, inspect: Inspector, c: ContainerInfo, sub: string, at: int, still: bool) {
    (exists cfg :: Says(parse, c, sub, cfg)) && RunsSince(inspect, c, at, still)
  }

  /** Entry `i` is the last of the list that gives `sub` a start time, and that is `at`. */
  ghost predicate LastGives(parse: Parser, inspect: Inspector, list: Listing, sub: string, i: nat, at: int, still: bool) {
    && i < |list| && Gives(parse, inspect, list[i], sub, at, still)
    && (forall j | i < j < |list| :: forall at' :: !Gives(parse, inspect, list[j], sub, at', still))
  }

  ghost predicate NoneGives(parse: Parser, inspect: Inspector, list: Listing, sub: string, still: bool) {
    forall i | 0 <= i < |list| :: forall at :: !Gives(parse, inspect, list[i], sub, at, still)
  }

  /** The last entry of the list that gives a start time wins; if none does the service keeps what it had. */
  ghost predicate LastWins(parse: Parser, inspect: Inspector, list: Listing, sub: string, still: bool,
                           before: Option<int>, after: Option<int>) {
    && (forall i: nat, at | LastGives(parse, inspect, list, sub, i, at, still) :: after == Some(at))
    && (NoneGives(parse, inspect, list, sub, still) ==> after == before)
  }

  /** One entry of the list. */
  ghost predicate Updates(parse: Parser, inspect: Inspector, c: ContainerInfo, sub: string, still: bool,
                          before: Option<int>, after: Option<int>) {
    && (forall at | Gives(parse, inspect, c, sub, at, still) :: after == Some(at))
    && ((forall at :: !Gives(parse, inspect, c, sub, at, still)) ==> after == before)
  }

  lemma LastWinsMore(parse: Parser, inspect: Inspector, front: Listing, c: ContainerInfo, sub: string, still: bool,
                     before: Option<int>, between: Option<int>, after: Option<int>)
    requires LastWins(parse, inspect, front, sub, still, before, between)
    requires Updates(parse, inspect, c, sub, still, between, after)
    ensures LastWins(parse, inspect, front + [c], sub, still, before, after)
  {
    var list, n := front + [c], |front|;
    assert list[n] == c && forall i | 0 <= i < n :: list[i] == front[i];
    forall i: nat, at | LastGives(parse, inspect, list, sub, i, at, still)
      ensures after == Some(at)
    {
      if i < n {
        assert forall at' :: !Gives(parse, inspect, list[n], sub, at', still);
        assert LastGives(parse, inspect, front, sub, i, at, still);
      }
    }
    if NoneGives(parse, inspect, list, sub, still) {
      assert forall at' :: !Gives(parse, inspect, list[n], sub, at', still);
      assert NoneGives(parse, inspect, front, sub, still);
    }
  }

  lemma MergeGives(parse: Parser, inspect: Inspector, m: Maps, c: ContainerInfo, sub: string)
    ensures Updates(parse, inspect, c, sub, false, Opt(m.started, sub), Opt(Merge(parse, inspect, m, c).started, sub))
  {
    ClaimsIsSays(parse, c, sub);
    if Claims(parse, c, sub) && StartedBySync(inspect, c).Some? {
      assert Gives(parse, inspect, c, sub, StartedBySync(inspect, c).value, false);
    }
  }

  lemma AdoptGives(parse: Parser, inspect: Inspector, m: Maps, c: ContainerInfo, sub: string)
    ensures Updates(parse, inspect, c, sub, true, Opt(m.started, sub), Opt(Adopt(parse, inspect, m, c).started, sub))
  {
    ClaimsIsSays(parse, c, sub);
    if Claims(parse, c, sub) && StartedByDiscovery(inspect, c).Some? {
      assert Gives(parse, inspect, c, sub, StartedByDiscovery(inspect, c).value, true);
    }
  }

  /** A merge takes over start times, and leaves alone those that the list says nothing about. */
  lemma {:induction false} MergeAllStarted(parse: Parser, inspect: Inspector, m: Maps, list: Listing, sub: string)
    ensures LastWins(parse, inspect, list, sub, false, Opt(m.started, sub), Opt(MergeAll(parse, inspect, m, list).started, sub))
  {
    if list != [] {
      var front, c := list[..|list| - 1], list[|list| - 1];
      var before := MergeAll(parse, inspect, m, front);
      MergeAllStarted(parse, inspect, m, front, sub);
      MergeGives(parse, inspect, before, c, sub);
      LastWinsMore(parse, inspect, front, c, sub, false, Opt(m.started, sub), Opt(before.started, sub),
                   Opt(Merge(parse, inspect, before, c).started, sub));
      assert list == front + [c];
    }
  }

  /** Discovery takes over the start times of the containers that are listed as running and that the inspection finds
      running: for each service the last one on the list. */
  lemma {:induction false} DiscoveryStarted(parse: Parser, inspect: Inspector, m: Maps, list: Listing, sub: string)
    ensures LastWins(parse, inspect, list, sub, true, Opt(m.started, sub), Opt(AdoptAll(parse, inspect, m, list).started, sub))
  {
    if list != [] {
      var front, c := list[..|list| - 1], list[|list| - 1];
      var before := AdoptAll(parse, inspect, m, front);
      DiscoveryStarted(parse, inspect, m, front, sub);
      AdoptGives(parse, inspect, before, c, sub);
      LastWinsMore(parse, inspect, front, c, sub, true, Opt(m.started, sub), Opt(before.started, sub),
                   Opt(Adopt(parse, inspect, before, c).started, sub));
      assert list == front + [c];
    }
  }

  function StateNames(states: map<string, ServiceState>): States {
    map sub | sub in states :: states[sub].state
  }

  function ReadyLists(states: map<string, ServiceState>): map<string, seq<nat>> {
    map sub | sub in states :: states[sub].readyChans
  }

  lemma StateSet(states: map<string, ServiceState>, sub: string, state: string)
    ensures var after := states[sub := ServiceState(state, if sub in states then states[sub].readyChans else [])];
            && StateNames(after) == StateNames(states)[sub := state]
            && ReadyLists(after) == ReadyLists(states)[sub := Get(ReadyLists(states), sub, [])]
  {
  }

  function NoLonger(t: T.Timer): T.Timer {
    if t.status == T.Pending then t.(status := T.Stopped) else t
  }

  /** Every pending timer was stopped, and no other one was touched. */
  ghost predicate NonePending(before: seq<T.Timer>, after: seq<T.Timer>) {
    |after| == |before| && forall id | 0 <= id < |after| :: after[id] == NoLonger(before[id])
  }

  /** Exactly the channels in `taken` got their one signal. */
  ghost predicate Signals(before: seq<R.Chan>, after: seq<R.Chan>, taken: seq<nat>) {
    && |after| == |before|
    && forall ch: nat | ch < |before| ::
         after[ch] == if ch in taken then R.Chan(1, true) else before[ch]
  }

  lemma SignalsMore(before: seq<R.Chan>, after: seq<R.Chan>, taken: seq<nat>, ch: nat)
    requires Signals(before, after, taken) && ch < |after| && after[ch] == R.Chan(0, false)
    ensures Signals(before, R.Signal(after, ch), taken + [ch])
  {
  }

  /** The one event that a stop records. */
  function StopEvent(now: int, cfg: Config, failure: Option<string>): Event {
    if failure.Some? then Event(now, StopError, failure)
    else if cfg.strategy == PauseStrategy then Event(now, Paused, None)
    else Event(now, Stopped, None)
  }

  /** The two events of a timer's callback. */
  function FireEvents(now: int, cfg: Config, failure: Option<string>): seq<Entry> {
    [Entry(cfg.subdomain, Event(now, IdleStopped, None))] + [Entry(cfg.subdomain, StopEvent(now, cfg, failure))]
  }

  lemma NothingLost<V>(m: map<string, V>)
    ensures m - {} == m
  {
  }

  /** The container needs a start: it was seen down, or frozen under the pause strategy. */
  predicate Asleep(cfg: Config, box: Option<L.Box>) {
    box == Some(L.Down) || (box == Some(L.Frozen) && cfg.strategy == PauseStrategy)
  }

  function StartEvents(now: int, cfg: Config, failure: Option<string>): seq<Entry> {
    [Entry(cfg.subdomain, Event(now, StartRequested, None))]
    + if failure.Some? then [Entry(cfg.subdomain, Event(now, StartError, failure))] else []
  }

  // Disappearances

  ghost predicate NoRepeats(names: seq<string>) {
    forall i, j | 0 <= i < j < |names| :: names[i] != names[j]
  }

  /** `names` are the members of `all`, each of them once. */
  ghost predicate Enumerates(names: seq<string>, all: set<string>) {
    NoRepeats(names) && forall name :: name in names <==> name in all
  }

  /** The containers that a sync drops: those of the reverse map that are not listed. */
  ghost predicate DropsGone(known: Configs, dropped: seq<string>, list: Listing) {
    NoRepeats(dropped) && forall name :: name in dropped <==> name in known && !Listed(list, name)
  }

  lemma EnumeratesMore(names: seq<string>, all: set<string>, name: string, all': set<string>)
    requires Enumerates(names, all) && name !in all && all' == all + {name}
    ensures Enumerates(names + [name], all')
  {
  }

  /** One more name looked at: it is dropped if it was not found. */
  lemma VisitMore(names: seq<string>, keys: set<string>, found: set<string>, rest: set<string>, name: string)
    requires Enumerates(names, keys - found - rest) && name in rest && rest <= keys
    ensures Enumerates(if name in found then names else names + [name], keys - found - (rest - {name}))
  {
    if name in found {
      assert keys - found - (rest - {name}) == keys - found - rest;
    } else {
      EnumeratesMore(names, keys - found - rest, name, keys - found - (rest - {name}));
    }
  }

  ghost function NamesOf(dropped: seq<string>): set<string> {
    set name | name in dropped
  }

  ghost function SubsOf(known: Configs, dropped: seq<string>): set<string> {
    set name | name in dropped && name in known :: known[name].subdomain
  }

  function Departures(now: int, known: Configs, dropped: seq<string>): seq<Entry> {
    if dropped == [] then []
    else
      var name := dropped[|dropped| - 1];
      Departures(now, known, dropped[..|dropped| - 1])
      + if name in known then [Entry(known[name].subdomain, Event(now, Disappeared, None))] else []
  }

  /** What a disappearance changes. */
  datatype Whole = Whole(maps: Maps, timers: T.Table, recorded: seq<Entry>)

  function Erased(w: Whole, sub: string, name: string): Whole {
    w.(maps := Without(w.maps, {sub}, {name}))
  }

  function Retired(w: Whole, sub: string, name: string): Whole {
    Whole(w.maps, T.Take(w.timers, name), w.recorded + [Entry(sub, Event(w.timers.now, Disappeared, None))])
  }

  function DropStep(w: Whole, sub: string, name: string): Whole {
    Retired(Erased(w, sub, name), sub, name)
  }

  lemma DropParts(before: Whole, between: Whole, after: Whole, sub: string, name: string)
    requires between == Erased(before, sub, name) && after == Retired(between, sub, name)
    ensures after == DropStep(before, sub, name)
  {
  }

  function DropEach(w: Whole, known: Configs, dropped: seq<string>): Whole {
    if dropped == [] then w
    else
      var before, name := DropEach(w, known, dropped[..|dropped| - 1]), dropped[|dropped| - 1];
      if name in known then DropStep(before, known[name].subdomain, name) else before
  }

  lemma DropEachMore(w: Whole, known: Configs, dropped: seq<string>, name: string)
    requires name in known
    ensures DropEach(w, known, dropped + [name]) == DropStep(DropEach(w, known, dropped), known[name].subdomain, name)
  {
    assert (dropped + [name])[..|dropped|] == dropped;
  }

  lemma SetsMore(known: Configs, front: seq<string>, name: string)
    requires name in known
    ensures NamesOf(front + [name]) == NamesOf(front) + {name}
    ensures SubsOf(known, front + [name]) == SubsOf(known, front) + {known[name].subdomain}
  {
  }

  lemma {:induction false} DropEachMaps(w: Whole, known: Configs, dropped: seq<string>)
    requires forall name | name in dropped :: name in known
    ensures DropEach(w, known, dropped).maps == Without(w.maps, SubsOf(known, dropped), NamesOf(dropped))
  {
    if dropped == [] {
      assert SubsOf(known, dropped) == {} && NamesOf(dropped) == {};
      WithoutNone(w.maps);
    } else {
      var front, name := dropped[..|dropped| - 1], dropped[|dropped| - 1];
      assert dropped == front + [name];
      DropEachMaps(w, known, front);
      SetsMore(known, front, name);
      WithoutMore(w.maps, SubsOf(known, front), NamesOf(front), known[name].subdomain, name);
    }
  }

  lemma {:induction false} DropEachRest(w: Whole, known: Configs, dropped: seq<string>)
    requires forall name | name in dropped :: name in known
    ensures var d := DropEach(w, known, dropped);
            d.timers == L.TakeAll(w.timers, dropped) && d.recorded == w.recorded + Departures(w.timers.now, known, dropped)
  {
    if dropped != [] {
      var front := dropped[..|dropped| - 1];
      assert dropped == front + [dropped[|dropped| - 1]];
      DropEachRest(w, known, front);
      TakeAllKeepsClock(w.timers, front);
    }
  }

  /** One disappearance after the other removes all at once, in any order. */
  lemma {:induction false} DropEachParts(w: Whole, known: Configs, dropped: seq<string>)
    requires forall name | name in dropped :: name in known
    ensures DropEach(w, known, dropped) ==
            Whole(Without(w.maps, SubsOf(known, dropped), NamesOf(dropped)), L.TakeAll(w.timers, dropped),
                  w.recorded + Departures(w.timers.now, known, dropped))
  {
    DropEachMaps(w, known, dropped);
    DropEachRest(w, known, dropped);
  }

  lemma {:induction false} TakeAllKeepsClock(t: T.Table, names: seq<string>)
    ensures L.TakeAll(t, names).now == t.now
  {
    if names != [] {
      TakeAllKeepsClock(t, names[..|names| - 1]);
    }
  }

  /** What disappearances leave of the configurations is what a sync keeps. */
  lemma KeptIsWithout(m: Maps, known: Configs, dropped: seq<string>, list: Listing)
    requires WellKeyed(m.configs) && Inverts(known, m.configs)
    requires DropsGone(known, dropped, list)
    ensures Without(m, SubsOf(known, dropped), NamesOf(dropped)).configs == Kept(m.configs, known, list)
  {
    forall sub | sub in m.configs
      ensures sub in SubsOf(known, dropped) <==> Drops(m.configs, known, list, sub)
    {
      DroppedSubs(m.configs, known, dropped, list, sub);
    }
  }

  function Merged(parse: Parser, inspect: Inspector, w: Whole, list: Listing): Whole {
    w.(maps := MergeAll(parse, inspect, w.maps, list))
  }

  /** A whole sync: the disappearances, the merge, the timers. */
  function Synced(parse: Parser, inspect: Inspector, w: Whole, known: Configs, dropped: seq<string>, list: Listing): Whole {
    var d := DropEach(w, known, dropped);
    Merged(parse, inspect, d, list).(timers := S.ArmAll(d.timers, S.ToArm(parse, d.maps.configs, list)))
  }

  /** What the steps of a sync come to: the registry and the states of Reconcile, the timers of SyncTimers, one
      disappeared event for each container that is gone, and nothing left of it in the other maps. */
  lemma {:induction false} SyncedIsSync(parse: Parser, inspect: Inspector, w: Whole, known: Configs, dropped: seq<string>,
                                        list: Listing)
    requires WellKeyed(w.maps.configs) && Inverts(known, w.maps.configs)
    requires DropsGone(known, dropped, list)
    ensures var s := Synced(parse, inspect, w, known, dropped, list);
            && s.maps.configs == Sync(parse, w.maps.configs, known, list)
            && s.maps.states == NoteAll(parse, w.maps.states - SubsOf(known, dropped), list, true)
            && s.timers == S.SyncTable(parse, w.timers, Kept(w.maps.configs, known, list), dropped, list)
            && s.recorded == w.recorded + Departures(w.timers.now, known, dropped)
    ensures var s := Synced(parse, inspect, w, known, dropped, list);
            && s.maps.locks == w.maps.locks - NamesOf(dropped)
            && s.maps.boots == w.maps.boots - SubsOf(known, dropped)
            && s.maps.ips == w.maps.ips - SubsOf(known, dropped)
            && s.maps.ipTimes == w.maps.ipTimes - SubsOf(known, dropped)
  {
    DropEachParts(w, known, dropped);
    KeptIsWithout(w.maps, known, dropped, list);
    MergeAllParts(parse, inspect, DropEach(w, known, dropped).maps, list);
  }

  /** The start time of a service after a sync: the last one that the list gives, or else, unless the service is dropped, the
      one it had; a running container whose inspection fails keeps its old one. */
  lemma {:induction false} SyncedStarted(parse: Parser, inspect: Inspector, w: Whole, known: Configs, dropped: seq<string>,
                                         list: Listing, sub: string)
    requires WellKeyed(w.maps.configs) && Inverts(known, w.maps.configs)
    requires DropsGone(known, dropped, list)
    ensures LastWins(parse, inspect, list, sub, false,
                     if Drops(w.maps.configs, known, list, sub) then None else Opt(w.maps.started, sub),
                     Opt(Synced(parse, inspect, w, known, dropped, list).maps.started, sub))
  {
    DropEachMaps(w, known, dropped);
    MergeAllStarted(parse, inspect, DropEach(w, known, dropped).maps, list, sub);
    DroppedSubs(w.maps.configs, known, dropped, list, sub);
  }

  /** A sync is a pass over the registry, and so is discovery. */
  lemma {:induction false} SyncIsPass(parse: Parser, inspect: Inspector, w: Whole, known: Configs, dropped: seq<string>,
                                      list: Listing)
    requires WellKeyed(w.maps.configs) && Inverts(known, w.maps.configs)
    requires DropsGone(known, dropped, list)
    ensures var m := Synced(parse, inspect, w, known, dropped, list).maps;
            && m.configs == After(parse, w.maps.configs, Resync(known, list))
            && m.states == StatesAfter(parse, w.maps.configs, w.maps.states, Resync(known, list))
  {
    SyncedIsSync(parse, inspect, w, known, dropped, list);
    var left := map sub | sub in w.maps.states && !Drops(w.maps.configs, known, list, sub) :: w.maps.states[sub];
    forall sub
      ensures sub in SubsOf(known, dropped) <==> Drops(w.maps.configs, known, list, sub)
    {
      DroppedSubs(w.maps.configs, known, dropped, list, sub);
    }
    assert w.maps.states - SubsOf(known, dropped) == left;
  }

  lemma DiscoveryIsPass(parse: Parser, inspect: Inspector, m: Maps, list: Listing)
    ensures var a := AdoptAll(parse, inspect, m, list);
            && a.configs == After(parse, m.configs, Discovery(list))
            && a.states == StatesAfter(parse, m.configs, m.states, Discovery(list))
            && (m.configs == map[] ==> a.configs == Rebuild(parse, list))
            && a.locks == m.locks && a.boots == m.boots && a.ips == m.ips && a.ipTimes == m.ipTimes
  {
    AdoptAllParts(parse, inspect, m, list);
  }

  lemma {:induction false} OfConcat(a: seq<Entry>, b: seq<Entry>, sub: string)
    ensures Of(a + b, sub) == Of(a, sub) + Of(b, sub)
  {
    if b == [] {
      assert a + b == a;
    } else {
      OfConcat(a, b[..|b| - 1], sub);
      assert (a + b)[..|a + b| - 1] == a + b[..|b| - 1];
    }
  }

  lemma {:induction false} DeparturesOnce(now: int, configs: Configs, known: Configs, dropped: seq<string>, sub: string)
    requires Inverts(known, configs) && NoRepeats(dropped) && forall name | name in dropped :: name in known
    ensures Of(Departures(now, known, dropped), sub) ==
            if sub in SubsOf(known, dropped) then [Event(now, Disappeared, None)] else []
  {
    if dropped != [] {
      var front, name := dropped[..|dropped| - 1], dropped[|dropped| - 1];
      assert dropped == front + [name];
      DeparturesOnce(now, configs, known, front, sub);
      SetsMore(known, front, name);
      OfConcat(Departures(now, known, front), [Entry(known[name].subdomain, Event(now, Disappeared, None))], sub);
    }
  }

  /** A sync records one disappearance for every service it drops and nothing for any other service. */
  lemma {:induction false} SyncRecordsOnce(parse: Parser, inspect: Inspector, w: Whole, known: Configs, dropped: seq<string>,
                                           list: Listing, sub: string)
    requires WellKeyed(w.maps.configs) && Inverts(known, w.maps.configs)
    requires DropsGone(known, dropped, list)
    ensures Of(Synced(parse, inspect, w, known, dropped, list).recorded, sub) ==
            Of(w.recorded, sub)
            + if Drops(w.maps.configs, known, list, sub) then [Event(w.timers.now, Disappeared, None)] else []
  {
    SyncedIsSync(parse, inspect, w, known, dropped, list);
    DeparturesOnce(w.timers.now, w.maps.configs, known, dropped, sub);
    OfConcat(w.recorded, Departures(w.timers.now, known, dropped), sub);
    DroppedSubs(w.maps.configs, known, dropped, list, sub);
  }

  lemma DroppedSubs(configs: Configs, known: Configs, dropped: seq<string>, list: Listing, sub: string)
    requires WellKeyed(configs) && Inverts(known, configs)
    requires DropsGone(known, dropped, list)
    ensures sub in SubsOf(known, dropped) <==> Drops(configs, known, list, sub)
  {
    if sub in SubsOf(known, dropped) {
      var name :| name in dropped && name in known && known[name].subdomain == sub;
      assert configs[sub].container == name;
    }
  }

  class Process {
    const parse: Parser
    var now: int
    var configs: Configs
    var states: map<string, ServiceState>
    var heap: seq<T.Timer>
    var idleTimers: map<string, nat>
    var startLocks: map<string, nat>
    var nextLock: nat
    var bootStarts: map<string, int>
    var startedAt: map<string, int>
    var ipCache: map<string, string>
    var ipCacheAt: map<string, int>
    var events: map<string, seq<Event>>
    var chans: seq<R.Chan>
    var registered: nat
    ghost var doomed: set<nat>
    ghost var recorded: seq<Entry>
    ghost var sending: seq<seq<nat>>
    ghost var discarded: set<nat>
    ghost var places: seq<R.Place>
    ghost var passes: seq<Pass>

    ghost function View(): Maps
      reads this`configs, this`states, this`startLocks, this`bootStarts, this`startedAt, this`ipCache, this`ipCacheAt
    {
      Maps(configs, StateNames(states), startLocks, bootStarts, startedAt, ipCache, ipCacheAt)
    }

    ghost function Timers(): T.Table
      reads this`now, this`heap, this`idleTimers, this`doomed
    {
      T.Table(now, heap, idleTimers, doomed)
    }

    ghost function Ready(): R.Ready
      reads this`states, this`sending, this`chans, this`discarded
    {
      R.Ready(ReadyLists(states), sending, chans, discarded)
    }

    /** All that a disappearance changes. */
    ghost function All(): Whole
      reads this`configs, this`states, this`startLocks, this`bootStarts, this`startedAt, this`ipCache, this`ipCacheAt
      reads this`now, this`heap, this`idleTimers, this`doomed, this`recorded
    {
      Whole(View(), Timers(), recorded)
    }

    /** The stored events are those of the record. */
    ghost predicate KeepsHistory()
      reads this`events, this`recorded
    {
      events == Stored(recorded)
    }

    /** Every cached address has its time. */
    ghost predicate TimesAddresses()
      reads this`ipCache, this`ipCacheAt
    {
      ipCache.Keys == ipCacheAt.Keys
    }

    /** Every ready channel is in its one place. */
    ghost predicate PlacesChannels()
      reads this`states, this`sending, this`chans, this`discarded, this`places
    {
      R.Placed(Ready(), places)
    }

    /** Every pending timer is stored or being shut down. */
    ghost predicate OwnsTimers()
      reads this`now, this`heap, this`idleTimers, this`doomed
    {
      T.Owned(Timers())
    }

    /** The configurations are keyed by their subdomains. */
    ghost predicate KeysConfigs()
      reads this`configs
    {
      WellKeyed(configs)
    }

    /** The registry is what the passes of discovery and the watcher have made of it. */
    ghost predicate FollowsPasses()
      reads this`configs, this`passes
    {
      configs == Registry(parse, passes) && Possible(parse, passes)
    }

    ghost predicate Valid()
      reads this
    {
      KeepsHistory() && TimesAddresses() && PlacesChannels() && OwnsTimers() && KeysConfigs()
    }

    constructor (parse: Parser, now: int)
      ensures Valid() && FollowsPasses() && passes == [] && recorded == [] && Timers() == T.Start(now) && this.parse == parse
      ensures View() == Maps(map[], map[], map[], map[], map[], map[], map[])
    {
      this.parse := parse;
      this.now := now;
      configs, states, heap, idleTimers, startLocks, nextLock := map[], map[], [], map[], map[], 0;
      bootStarts, startedAt, ipCache, ipCacheAt, events, chans := map[], map[], map[], map[], map[], [];
      registered, doomed, recorded, sending, discarded, places := 0, {}, [], [], {}, [];
      passes := [];
    }

    // registry.go

    method RecordEvent(sub: string, kind: Kind, error: Option<string>)
      requires KeepsHistory()
      modifies this`events, this`recorded
      ensures KeepsHistory() && recorded == old(recorded) + [Entry(sub, Event(now, kind, error))]
    {
      var ev := Event(now, kind, error);
      StoredAppend(recorded, sub, ev);
      var hist := (if sub in events then events[sub] else []) + [ev];
      if |hist| > MAX {
        hist := hist[|hist| - MAX..];
      }
      events := events[sub := hist];
      recorded := recorded + [Entry(sub, ev)];
    }

    /** The first caller sets the origin of the boot; every later one gets the same until it is cleared. */
    method MarkBootStart(sub: string) returns (t: int)
      modifies this`bootStarts
      ensures t == Get(old(bootStarts), sub, now)
      ensures bootStarts == old(bootStarts)[sub := t]
    {
      if sub in bootStarts {
        t := bootStarts[sub];
        assert bootStarts == bootStarts[sub := t];
        return;
      }
      t := now;
      bootStarts := bootStarts[sub := now];
    }

    method ClearBootStart(sub: string)
      modifies this`bootStarts
      ensures bootStarts == old(bootStarts) - {sub}
    {
      bootStarts := bootStarts - {sub};
    }

    method SetStateIP(sub: string, ip: string)
      requires TimesAddresses()
      modifies this`ipCache, this`ipCacheAt
      ensures TimesAddresses()
      ensures ip == "" ==> ipCache == old(ipCache) - {sub} && ipCacheAt == old(ipCacheAt) - {sub}
      ensures ip != "" ==> ipCache == old(ipCache)[sub := ip] && ipCacheAt == old(ipCacheAt)[sub := now]
    {
      if ip == "" {
        ipCache := ipCache - {sub};
        ipCacheAt := ipCacheAt - {sub};
        return;
      }
      ipCache := ipCache[sub := ip];
      ipCacheAt := ipCacheAt[sub := now];
    }

    method CachedIP(sub: string) returns (ip: string, ok: bool)
      requires TimesAddresses()
      ensures ok <==> sub in ipCache && now - ipCacheAt[sub] <= 30
      ensures ip == if ok then ipCache[sub] else ""
    {
      if sub !in ipCache {
        return "", false;
      }
      if now - ipCacheAt[sub] > IP_TTL {
        return "", false;
      }
      return ipCache[sub], true;
    }

    method SubscribeReady(sub: string) returns (ch: nat)
      requires PlacesChannels()
      modifies this`chans, this`states, this`places
      ensures PlacesChannels() && ch == |old(chans)|
      ensures Ready() == R.Apply(old(Ready()), R.Subscribe(sub))
      ensures StateNames(states) == old(StateNames(states))[sub := Get(old(StateNames(states)), sub, "")]
    {
      R.PlacedStep(Ready(), places, R.Subscribe(sub));
      places := R.Moved(Ready(), R.Subscribe(sub), places);
      ghost var before := Ready();
      ch := |chans|;
      chans := chans + [R.Chan(0, false)];
      var st := if sub in states then states[sub] else ServiceState("", []);
      states := states[sub := st.(readyChans := st.readyChans + [ch])];
      assert Ready() == R.Apply(before, R.Subscribe(sub));
    }

    /** The critical section of broadcastReady: the list is taken over by this broadcaster. */
    method TakeReadyChans(sub: string) returns (taken: seq<nat>)
      requires PlacesChannels()
      modifies this`states, this`sending, this`places
      ensures PlacesChannels() && Ready() == R.Apply(old(Ready()), R.Take(sub))
      ensures StateNames(states) == old(StateNames(states))
      ensures sub in old(states) ==>
                taken == old(states)[sub].readyChans && states == old(states)[sub := old(states)[sub].(readyChans := [])]
      ensures sub !in old(states) ==> taken == [] && states == old(states)
    {
      R.PlacedStep(Ready(), places, R.Take(sub));
      places := R.Moved(Ready(), R.Take(sub), places);
      if sub !in states {
        return [];
      }
      ghost var before := Ready();
      taken := states[sub].readyChans;
      states := states[sub := states[sub].(readyChans := [])];
      sending := sending + [taken];
      assert Ready() == R.Apply(before, R.Take(sub));
    }

    /** One non-blocking send of broadcaster `b`. */
    method SignalNext(ghost b: nat, ch: nat)
      requires PlacesChannels() && b < |sending| && sending[b] != [] && sending[b][0] == ch
      modifies this`chans, this`sending, this`places
      ensures PlacesChannels() && Ready() == R.Apply(old(Ready()), R.Send(b))
      ensures places == R.Moved(old(Ready()), R.Send(b), old(places))
    {
      R.PlacedStep(Ready(), places, R.Send(b));
      R.NextIsUnsignalled(Ready(), places, b);
      places := R.Moved(Ready(), R.Send(b), places);
      if !chans[ch].full {
        chans := chans[ch := R.Chan(chans[ch].signals + 1, true)];
      }
      sending := sending[b := sending[b][1..]];
    }

    /** One round of the sending loop. */
    method SignalRound(ghost b: nat, taken: seq<nat>, i: nat, ghost before: seq<R.Chan>)
      requires PlacesChannels() && i < |taken| && b < |sending| && sending[b] == taken[i..]
      requires Signals(before, chans, taken[..i])
      modifies this`chans, this`sending, this`places
      ensures PlacesChannels() && sending == old(sending)[b := taken[i + 1..]]
      ensures Signals(before, chans, taken[..i + 1])
    {
      R.NextIsUnsignalled(Ready(), places, b);
      ghost var was := chans;
      SignalNext(b, taken[i]);
      SignalsMore(before, was, taken[..i], taken[i]);
      assert taken[i..][1..] == taken[i + 1..] && taken[..i + 1] == taken[..i] + [taken[i]];
    }

    /** The sending loop of one broadcaster. */
    method SignalAll(ghost b: nat, taken: seq<nat>)
      requires PlacesChannels() && b < |sending| && sending[b] == taken
      modifies this`chans, this`sending, this`places
      ensures PlacesChannels() && sending == old(sending)[b := []]
      ensures Signals(old(chans), chans, taken)
    {
      assert sending == sending[b := taken];
      for i := 0 to |taken|
        invariant PlacesChannels() && b < |sending| && sending == old(sending)[b := taken[i..]]
        invariant Signals(old(chans), chans, taken[..i])
      {
        SignalRound(b, taken, i, old(chans));
      }
      assert taken[..|taken|] == taken;
    }

    /** Every channel that was subscribed when the list was taken is signalled, exactly once, and no other one. */
    method BroadcastReady(sub: string)
      requires PlacesChannels()
      modifies this`states, this`chans, this`sending, this`places
      ensures PlacesChannels() && StateNames(states) == old(StateNames(states))
      ensures Signals(old(chans), chans, Get(old(ReadyLists(states)), sub, []))
      ensures ReadyLists(states) == old(ReadyLists(states)) + map s | s in {sub} && s in old(states) :: []
    {
      var taken := TakeReadyChans(sub);
      if sub in states {
        SignalAll(|sending| - 1, taken);
      }
    }

    // timers.go

    method ArmIdleTimer(cfg: Config)
      requires OwnsTimers()
      modifies this`heap, this`idleTimers
      ensures OwnsTimers() && Timers() == T.Arm(old(Timers()), cfg)
      ensures !cfg.disableIdle && cfg.container !in old(idleTimers) ==>
                heap == old(heap) + [T.Timer(cfg, now, T.Pending)] && idleTimers == old(idleTimers)[cfg.container := |old(heap)|]
      ensures cfg.disableIdle || cfg.container in old(idleTimers) ==> heap == old(heap) && idleTimers == old(idleTimers)
    {
      T.OwnedStep(Timers(), T.ArmStep(cfg));
      if cfg.disableIdle {
        return;
      }
      if cfg.container in idleTimers {
        return;
      }
      idleTimers := idleTimers[cfg.container := |heap|];
      heap := heap + [T.Timer(cfg, now, T.Pending)];
    }

    /** Timer.Stop. */
    method HaltTimer(id: nat)
      modifies this`heap
      ensures heap == T.Halt(old(heap), id)
    {
      if id < |heap| && heap[id].status == T.Pending {
        heap := heap[id := heap[id].(status := T.Stopped)];
      }
    }

    method ResetIdleTimer(cfg: Config)
      requires OwnsTimers()
      modifies this`heap, this`idleTimers
      ensures OwnsTimers() && Timers() == T.Reset(old(Timers()), cfg)
      ensures !cfg.disableIdle ==>
                && |heap| == |old(heap)| + 1 && heap[|old(heap)|] == T.Timer(cfg, now, T.Pending)
                && idleTimers == old(idleTimers)[cfg.container := |old(heap)|]
    {
      T.OwnedStep(Timers(), T.ResetStep(cfg));
      if cfg.disableIdle {
        return;
      }
      if cfg.container in idleTimers {
        HaltTimer(idleTimers[cfg.container]);
      }
      idleTimers := idleTimers[cfg.container := |heap|];
      heap := heap + [T.Timer(cfg, now, T.Pending)];
    }

    /** Stop the timer of a container and forget it. */
    method TakeTimer(name: string)
      requires OwnsTimers()
      modifies this`heap, this`idleTimers
      ensures OwnsTimers() && Timers() == T.Take(old(Timers()), name)
    {
      T.OwnedStep(Timers(), T.TakeStep(name));
      if name in idleTimers {
        HaltTimer(idleTimers[name]);
        idleTimers := idleTimers - {name};
      }
    }

    method ClearServiceRuntimeState(sub: string)
      requires TimesAddresses()
      modifies this`startedAt, this`ipCache, this`ipCacheAt
      ensures TimesAddresses() && startedAt == old(startedAt) - {sub}
      ensures ipCache == old(ipCache) - {sub} && ipCacheAt == old(ipCacheAt) - {sub}
    {
      startedAt := startedAt - {sub};
      ipCache := ipCache - {sub};
      ipCacheAt := ipCacheAt - {sub};
    }

    /** stopContainerWithDocker: `failure` is Docker's answer. A stopped service loses its start time and its address. */
    method StopWithDocker(cfg: Config, failure: Option<string>) returns (counted: bool)
      requires KeepsHistory() && TimesAddresses()
      modifies this`startedAt, this`ipCache, this`ipCacheAt, this`events, this`recorded
      ensures KeepsHistory() && TimesAddresses() && (counted <==> failure == None)
      ensures recorded == old(recorded) + [Entry(cfg.subdomain, Event(now, if counted then Stopped else StopError, failure))]
      ensures var cleared := if counted then {cfg.subdomain} else {};
              startedAt == old(startedAt) - cleared && ipCache == old(ipCache) - cleared && ipCacheAt == old(ipCacheAt) - cleared
    {
      counted := failure == None;
      if failure.Some? {
        RecordEvent(cfg.subdomain, StopError, failure);
        return;
      }
      ClearServiceRuntimeState(cfg.subdomain);
      RecordEvent(cfg.subdomain, Stopped, None);
    }

    /** pauseContainer: a paused service keeps its start time and its address. */
    method PauseContainer(cfg: Config, failure: Option<string>) returns (counted: bool)
      requires KeepsHistory()
      modifies this`events, this`recorded
      ensures KeepsHistory() && (counted <==> failure == None)
      ensures recorded == old(recorded) + [Entry(cfg.subdomain, Event(now, if counted then Paused else StopError, failure))]
    {
      counted := failure == None;
      if failure.Some? {
        RecordEvent(cfg.subdomain, StopError, failure);
        return;
      }
      RecordEvent(cfg.subdomain, Paused, None);
    }

    /** stopContainerWithReason: the timer goes in any case, and exactly one event says how the stop ended. */
    method StopContainer(cfg: Config, failure: Option<string>) returns (counted: bool)
      requires KeepsHistory() && TimesAddresses() && OwnsTimers()
      modifies this`heap, this`idleTimers, this`startedAt, this`ipCache, this`ipCacheAt, this`events, this`recorded
      ensures KeepsHistory() && TimesAddresses() && OwnsTimers() && Timers() == T.Take(old(Timers()), cfg.container)
      ensures counted <==> failure == None
      ensures recorded == old(recorded) + [Entry(cfg.subdomain, Event(now, if failure.Some? then StopError
                                                                           else if cfg.strategy == PauseStrategy then Paused
                                                                           else Stopped, failure))]
      ensures if failure == None && cfg.strategy == StopStrategy then
                var sub := cfg.subdomain;
                startedAt == old(startedAt) - {sub} && ipCache == old(ipCache) - {sub} && ipCacheAt == old(ipCacheAt) - {sub}
              else startedAt == old(startedAt) && ipCache == old(ipCache) && ipCacheAt == old(ipCacheAt)
    {
      TakeTimer(cfg.container);
      counted := EndStop(cfg, failure);
    }

    /** Docker's part of a stop and what follows its answer. */
    method EndStop(cfg: Config, failure: Option<string>) returns (counted: bool)
      requires KeepsHistory() && TimesAddresses()
      modifies this`startedAt, this`ipCache, this`ipCacheAt, this`events, this`recorded
      ensures KeepsHistory() && TimesAddresses() && (counted <==> failure == None)
      ensures recorded == old(recorded) + [Entry(cfg.subdomain, Event(now, if failure.Some? then StopError
                                                                           else if cfg.strategy == PauseStrategy then Paused
                                                                           else Stopped, failure))]
      ensures if failure == None && cfg.strategy == StopStrategy then
                var sub := cfg.subdomain;
                startedAt == old(startedAt) - {sub} && ipCache == old(ipCache) - {sub} && ipCacheAt == old(ipCacheAt) - {sub}
              else startedAt == old(startedAt) && ipCache == old(ipCache) && ipCacheAt == old(ipCacheAt)
    {
      if cfg.strategy == PauseStrategy {
        counted := PauseContainer(cfg, failure);
      } else {
        counted := StopWithDocker(cfg, failure);
        NothingLost(old(startedAt));
        NothingLost(old(ipCache));
        NothingLost(old(ipCacheAt));
      }
    }

    /** A timer that is due fires and records its idle stop. */
    method StartFiring(id: nat)
      requires KeepsHistory() && OwnsTimers() && T.Enabled(Timers(), T.FireStep(id))
      modifies this`heap, this`events, this`recorded
      ensures KeepsHistory() && OwnsTimers() && Timers() == T.Apply(old(Timers()), T.FireStep(id))
      ensures recorded == old(recorded) + [Entry(heap[id].cfg.subdomain, Event(now, IdleStopped, None))]
    {
      T.OwnedStep(Timers(), T.FireStep(id));
      var cfg := heap[id].cfg;
      heap := heap[id := heap[id].(status := T.Fired)];
      RecordEvent(cfg.subdomain, IdleStopped, None);
    }

    /** The callback of a timer that is due: one idle_stop, then the stop. */
    method FireTimer(id: nat, failure: Option<string>)
      requires KeepsHistory() && TimesAddresses() && OwnsTimers() && T.Enabled(Timers(), T.FireStep(id))
      modifies this`heap, this`idleTimers, this`startedAt, this`ipCache, this`ipCacheAt, this`events, this`recorded
      ensures KeepsHistory() && TimesAddresses() && OwnsTimers()
      ensures Timers() == T.Take(T.Apply(old(Timers()), T.FireStep(id)), old(heap)[id].cfg.container)
      ensures recorded == old(recorded) + FireEvents(now, old(heap)[id].cfg, failure)
      ensures var sub := old(heap)[id].cfg.subdomain;
              && |recorded| == |old(recorded)| + 2 && old(recorded) <= recorded
              && recorded[|old(recorded)|] == Entry(sub, Event(now, IdleStopped, None))
              && recorded[|old(recorded)| + 1].sub == sub && recorded[|old(recorded)| + 1].event.error == failure
      ensures var cfg := old(heap)[id].cfg;
              if failure == None && cfg.strategy == StopStrategy then
                var sub := cfg.subdomain;
                startedAt == old(startedAt) - {sub} && ipCache == old(ipCache) - {sub} && ipCacheAt == old(ipCacheAt) - {sub}
              else startedAt == old(startedAt) && ipCache == old(ipCache) && ipCacheAt == old(ipCacheAt)
    {
      var cfg := heap[id].cfg;
      StartFiring(id);
      var counted := StopContainer(cfg, failure);
    }

    /** The critical section of stopAllIdleTimers: the table is emptied, the handles are still to be stopped. */
    method SwapTimers() returns (timers: seq<nat>)
      requires OwnsTimers() && doomed == {}
      modifies this`idleTimers, this`doomed
      ensures OwnsTimers() && Timers() == T.Apply(old(Timers()), T.SwapStep)
      ensures (set id | id in timers) == doomed
    {
      T.OwnedStep(Timers(), T.SwapStep);
      timers := [];
      var keys := idleTimers.Keys;
      while keys != {}
        invariant keys <= idleTimers.Keys
        invariant forall id | id in timers :: id in idleTimers.Values
        invariant forall k | k in idleTimers.Keys - keys :: idleTimers[k] in timers
        decreases keys
      {
        var k :| k in keys;
        timers := timers + [idleTimers[k]];
        keys := keys - {k};
      }
      doomed := idleTimers.Values;
      idleTimers := map[];
    }

    /** One handle that the shutdown has taken out of the table. */
    method RetireHandle(id: nat)
      requires OwnsTimers() && idleTimers == map[]
      modifies this`heap, this`doomed
      ensures OwnsTimers() && heap == T.Halt(old(heap), id) && doomed == old(doomed) - {id}
    {
      HaltTimer(id);
      doomed := doomed - {id};
    }

    /** The loop of stopAllIdleTimers. */
    method HaltTimers(timers: seq<nat>)
      requires OwnsTimers() && idleTimers == map[] && forall id | id in doomed :: id in timers
      modifies this`heap, this`doomed
      ensures OwnsTimers() && NonePending(old(heap), heap)
    {
      for i := 0 to |timers|
        invariant OwnsTimers() && |heap| == |old(heap)|
        invariant forall id | 0 <= id < |heap| ::
                    heap[id] == old(heap)[id] || heap[id] == NoLonger(old(heap)[id])
        invariant forall id | id in doomed :: id in timers[i..]
      {
        RetireHandle(timers[i]);
      }
    }

    /** Shutdown: if nothing comes in between, no timer is pending when it returns. */
    method StopAllIdleTimers()
      requires OwnsTimers() && doomed == {}
      modifies this`heap, this`idleTimers, this`doomed
      ensures OwnsTimers() && idleTimers == map[] && NonePending(old(heap), heap)
      ensures |heap| == |old(heap)| && forall id | 0 <= id < |heap| ::
                heap[id] == if old(heap)[id].status == T.Pending then old(heap)[id].(status := T.Stopped) else old(heap)[id]
    {
      var timers := SwapTimers();
      HaltTimers(timers);
    }

    // docker.go

    method AcquireStartLock(name: string) returns (lock: nat)
      modifies this`startLocks, this`nextLock
      ensures lock == L.LockFor(old(startLocks), name, old(nextLock))
      ensures startLocks == old(startLocks)[name := lock]
      ensures nextLock == old(nextLock) + if name in old(startLocks) then 0 else 1
    {
      if name in startLocks {
        lock := startLocks[name];
        assert startLocks == startLocks[name := lock];
      } else {
        lock := nextLock;
        startLocks := startLocks[name := lock];
        nextLock := nextLock + 1;
      }
    }

    /** startContainer between taking and releasing the lock. `box` is what the inspection sees, if it succeeds; `failure` is
        Docker's answer to the start or unpause. */
    method StartContainer(cfg: Config, box: Option<L.Box>, failure: Option<string>) returns (spawn: bool)
      requires KeepsHistory()
      modifies this`events, this`recorded, this`bootStarts
      ensures KeepsHistory() && (spawn <==> Asleep(cfg, box) && failure == None)
      ensures !Asleep(cfg, box) ==> recorded == old(recorded) && bootStarts == old(bootStarts)
      ensures Asleep(cfg, box) ==>
                && recorded == old(recorded) + StartEvents(now, cfg, failure)
                && recorded[|old(recorded)|..] ==
                   [Entry(cfg.subdomain, Event(now, StartRequested, None))]
                   + if failure.Some? then [Entry(cfg.subdomain, Event(now, StartError, failure))] else []
      ensures Asleep(cfg, box) ==>
                bootStarts == if spawn then old(bootStarts)[cfg.subdomain := Get(old(bootStarts), cfg.subdomain, now)]
                              else old(bootStarts) - {cfg.subdomain}
    {
      spawn := false;
      if box.Some? {
        var awake := box.value == L.Up || box.value == L.Frozen;
        if !awake || (cfg.strategy == PauseStrategy && box.value == L.Frozen) {
          spawn := IssueStart(cfg, failure);
        }
      }
    }

    /** The event of a start, and its boot origin unless there is one. */
    method AnnounceStart(cfg: Config)
      requires KeepsHistory()
      modifies this`events, this`recorded, this`bootStarts
      ensures KeepsHistory()
      ensures recorded == old(recorded) + [Entry(cfg.subdomain, Event(now, StartRequested, None))]
      ensures bootStarts == old(bootStarts)[cfg.subdomain := Get(old(bootStarts), cfg.subdomain, now)]
    {
      RecordEvent(cfg.subdomain, StartRequested, None);
      var origin := MarkBootStart(cfg.subdomain);
    }

    /** The event of a start that Docker refused; its boot origin goes. */
    method AbandonStart(cfg: Config, failure: Option<string>)
      requires KeepsHistory()
      modifies this`events, this`recorded, this`bootStarts
      ensures KeepsHistory()
      ensures recorded == old(recorded) + [Entry(cfg.subdomain, Event(now, StartError, failure))]
      ensures bootStarts == old(bootStarts) - {cfg.subdomain}
    {
      ClearBootStart(cfg.subdomain);
      RecordEvent(cfg.subdomain, StartError, failure);
    }

    /** The part of startContainer from the event to the answer of Docker. */
    method IssueStart(cfg: Config, failure: Option<string>) returns (ok: bool)
      requires KeepsHistory()
      modifies this`events, this`recorded, this`bootStarts
      ensures KeepsHistory() && (ok <==> failure == None)
      ensures recorded == old(recorded) + StartEvents(now, cfg, failure)
      ensures bootStarts == if ok then old(bootStarts)[cfg.subdomain := Get(old(bootStarts), cfg.subdomain, now)]
                            else old(bootStarts) - {cfg.subdomain}
    {
      AnnounceStart(cfg);
      ok := failure == None;
      if !ok {
        AbandonStart(cfg, failure);
      }
    }

    /** The waiter's critical section when the port answers at address `ip`. */
    method PublishReady(cfg: Config, ip: string)
      requires TimesAddresses()
      modifies this`bootStarts, this`startedAt, this`ipCache, this`ipCacheAt
      ensures TimesAddresses()
      ensures bootStarts == old(bootStarts) - {cfg.subdomain} && startedAt == old(startedAt)[cfg.subdomain := now]
      ensures ipCache == old(ipCache)[cfg.subdomain := ip] && ipCacheAt == old(ipCacheAt)[cfg.subdomain := now]
    {
      bootStarts := bootStarts - {cfg.subdomain};
      startedAt := startedAt[cfg.subdomain := now];
      ipCache := ipCache[cfg.subdomain := ip];
      ipCacheAt := ipCacheAt[cfg.subdomain := now];
    }

    method AnnounceReady(cfg: Config, ip: string)
      requires KeepsHistory() && TimesAddresses()
      modifies this`bootStarts, this`startedAt, this`ipCache, this`ipCacheAt, this`events, this`recorded
      ensures KeepsHistory() && TimesAddresses()
      ensures bootStarts == old(bootStarts) - {cfg.subdomain} && startedAt == old(startedAt)[cfg.subdomain := now]
      ensures ipCache == old(ipCache)[cfg.subdomain := ip] && ipCacheAt == old(ipCacheAt)[cfg.subdomain := now]
      ensures recorded == old(recorded) + [Entry(cfg.subdomain, Event(now, BecameReady, None))]
    {
      PublishReady(cfg, ip);
      RecordEvent(cfg.subdomain, BecameReady, None);
    }

    /** The end of waitForReady: the maps, the event, and a signal to everyone who has subscribed by then. */
    method BecomeReady(cfg: Config, ip: string)
      requires KeepsHistory() && TimesAddresses() && PlacesChannels()
      modifies this`bootStarts, this`startedAt, this`ipCache, this`ipCacheAt, this`events, this`recorded
      modifies this`states, this`chans, this`sending, this`places
      ensures KeepsHistory() && TimesAddresses() && PlacesChannels()
      ensures bootStarts == old(bootStarts) - {cfg.subdomain} && startedAt == old(startedAt)[cfg.subdomain := now]
      ensures ipCache == old(ipCache)[cfg.subdomain := ip] && ipCacheAt == old(ipCacheAt)[cfg.subdomain := now]
      ensures recorded == old(recorded) + [Entry(cfg.subdomain, Event(now, BecameReady, None))]
      ensures Signals(old(chans), chans, Get(old(ReadyLists(states)), cfg.subdomain, []))
    {
      AnnounceReady(cfg, ip);
      BroadcastReady(cfg.subdomain);
    }

    /** The reverse map of the registry; which service a shared container maps to is up to the iteration order. */
    method BuildKnown() returns (known: Configs)
      requires KeysConfigs()
      ensures Inverts(known, configs)
    {
      known := map[];
      var rest := configs.Keys;
      while rest != {}
        invariant rest <= configs.Keys
        invariant forall sub | sub in configs.Keys - rest :: configs[sub].container in known
        invariant forall name | name in known ::
                    && known[name].container == name
                    && known[name].subdomain in configs
                    && configs[known[name].subdomain] == known[name]
        decreases rest
      {
        var sub :| sub in rest;
        known := known[configs[sub].container := configs[sub]];
        rest := rest - {sub};
      }
    }

    method FindListed(list: Listing, known: Configs) returns (found: set<string>)
      ensures forall name :: name in found <==> name in known && Listed(list, name)
    {
      found := {};
      for i := 0 to |list|
        invariant forall name :: name in found <==> name in known && Listed(list[..i], name)
      {
        assert list[..i + 1] == list[..i] + [list[i]];
        if list[i].name in known {
          found := found + {list[i].name};
        }
      }
      assert list[..|list|] == list;
    }

    /** The state of a service goes, and whoever waits for it waits in vain. */
    method DropState(sub: string)
      requires PlacesChannels()
      modifies this`states, this`places, this`discarded
      ensures PlacesChannels() && StateNames(states) == old(StateNames(states)) - {sub}
      ensures Ready() == R.Apply(old(Ready()), R.Drop(sub))
    {
      ghost var ready := Ready();
      R.PlacedStep(ready, places, R.Drop(sub));
      places := R.Moved(ready, R.Drop(sub), places);
      if sub in states {
        discarded := discarded + (set ch | ch in states[sub].readyChans);
      }
      states := states - {sub};
      assert Ready() == R.Apply(ready, R.Drop(sub));
    }

    /** The entries of a service and its container in the maps that hold no channels. */
    method DropEntries(name: string, sub: string)
      requires KeysConfigs() && TimesAddresses()
      modifies this`configs, this`bootStarts, this`startedAt, this`startLocks, this`ipCache, this`ipCacheAt
      ensures KeysConfigs() && TimesAddresses()
      ensures configs == old(configs) - {sub} && startLocks == old(startLocks) - {name}
      ensures bootStarts == old(bootStarts) - {sub} && startedAt == old(startedAt) - {sub}
      ensures ipCache == old(ipCache) - {sub} && ipCacheAt == old(ipCacheAt) - {sub}
    {
      configs := configs - {sub};
      bootStarts := bootStarts - {sub};
      startedAt := startedAt - {sub};
      startLocks := startLocks - {name};
      ipCache := ipCache - {sub};
      ipCacheAt := ipCacheAt - {sub};
    }

    /** A service and its container leave all maps. */
    method DropService(name: string, sub: string)
      requires KeysConfigs() && TimesAddresses() && PlacesChannels()
      modifies this`configs, this`bootStarts, this`startedAt, this`startLocks, this`ipCache, this`ipCacheAt
      modifies this`states, this`places, this`discarded
      ensures KeysConfigs() && TimesAddresses() && PlacesChannels()
      ensures All() == Erased(old(All()), sub, name)
    {
      DropEntries(name, sub);
      DropState(sub);
      assert View() == Without(old(View()), {sub}, {name});
    }

    method RetireTimer(name: string, sub: string)
      requires OwnsTimers() && KeepsHistory()
      modifies this`heap, this`idleTimers, this`events, this`recorded
      ensures OwnsTimers() && KeepsHistory()
      ensures All() == Retired(old(All()), sub, name)
    {
      TakeTimer(name);
      RecordEvent(sub, Disappeared, None);
    }

    /** One disappeared container. */
    method DropOne(name: string, sub: string)
      requires Valid()
      modifies this`configs, this`heap, this`idleTimers, this`bootStarts, this`startedAt, this`startLocks, this`states
      modifies this`places, this`discarded, this`ipCache, this`ipCacheAt, this`events, this`recorded
      ensures Valid() && All() == DropStep(old(All()), sub, name)
    {
      ghost var before := All();
      DropService(name, sub);
      ghost var between := All();
      RetireTimer(name, sub);
      DropParts(before, between, All(), sub, name);
    }

    /** Everything that the reverse map knows and the list does not have goes. */
    method DropAll(known: Configs, found: set<string>) returns (ghost dropped: seq<string>)
      requires Valid()
      modifies this`configs, this`heap, this`idleTimers, this`bootStarts, this`startedAt, this`startLocks, this`states
      modifies this`places, this`discarded, this`ipCache, this`ipCacheAt, this`events, this`recorded
      ensures Valid() && Enumerates(dropped, known.Keys - found)
      ensures All() == DropEach(old(All()), known, dropped)
    {
      dropped := [];
      var rest := known.Keys;
      while rest != {}
        invariant rest <= known.Keys && Enumerates(dropped, known.Keys - found - rest)
        invariant Valid() && All() == DropEach(old(All()), known, dropped)
        decreases rest
      {
        var name :| name in rest;
        VisitMore(dropped, known.Keys, found, rest, name);
        rest := rest - {name};
        if name !in found {
          DropOne(name, known[name].subdomain);
          DropEachMore(old(All()), known, dropped, name);
          dropped := dropped + [name];
        }
      }
    }

    /** The registry's part of an entry that parses; the result keeps its empty container name unless it is registered. */
    method MergeConfig(c: ContainerInfo) returns (cfg: Config)
      requires PlacesChannels() && KeysConfigs() && Parsed(parse, c).Some?
      modifies this`configs, this`states, this`places
      ensures PlacesChannels() && KeysConfigs() && cfg == S.ArmedConfig(parse, old(configs), c)
      ensures View() ==
              old(View()).(configs := Register(parse, old(configs), c), states := Note(parse, old(View()).states, c, true))
    {
      cfg := Parsed(parse, c).value;
      if cfg.subdomain !in configs || configs[cfg.subdomain].container != c.name {
        cfg := cfg.(container := c.name);
        configs := configs[cfg.subdomain := cfg];
      }
      SetState(cfg.subdomain, c.state);
    }

    method TakeStartTime(sub: string, at: Option<int>)
      modifies this`startedAt
      ensures View() == old(View()).(started := Timed(old(startedAt), sub, at))
    {
      if at.Some? {
        startedAt := startedAt[sub := at.value];
      }
    }

    /** One entry of the list; the result is the configuration to arm. */
    method MergeOne(c: ContainerInfo, inspect: Inspector) returns (arm: Option<Config>)
      requires PlacesChannels() && KeysConfigs()
      modifies this`configs, this`states, this`startedAt, this`places
      ensures PlacesChannels() && KeysConfigs()
      ensures View() == Merge(parse, inspect, old(View()), c)
      ensures arm == if S.Runs(parse, c) then Some(S.ArmedConfig(parse, old(configs), c)) else None
    {
      arm := None;
      if Parsed(parse, c).Some? {
        var cfg := MergeConfig(c);
        TakeStartTime(cfg.subdomain, StartedBySync(inspect, c));
        if c.state == S.RUNNING {
          arm := Some(cfg);
        }
      }
    }

    /** The state of a service, whose waiting channels stay where they are. */
    method SetState(sub: string, state: string)
      requires PlacesChannels()
      modifies this`states, this`places
      ensures PlacesChannels() && StateNames(states) == old(StateNames(states))[sub := state]
      ensures Ready() == R.Apply(old(Ready()), R.Register(sub))
    {
      R.PlacedStep(Ready(), places, R.Register(sub));
      StateSet(states, sub, state);
      places := R.Moved(Ready(), R.Register(sub), places);
      if sub !in states {
        states := states[sub := ServiceState(state, [])];
      } else {
        states := states[sub := states[sub].(state := state)];
      }
    }

    method MergeList(list: Listing, inspect: Inspector) returns (toArm: seq<Config>)
      requires PlacesChannels() && KeysConfigs()
      modifies this`configs, this`states, this`startedAt, this`places
      ensures PlacesChannels() && KeysConfigs()
      ensures View() == MergeAll(parse, inspect, old(View()), list)
      ensures toArm == S.ToArm(parse, old(configs), list)
    {
      toArm := [];
      for i := 0 to |list|
        invariant PlacesChannels() && KeysConfigs()
        invariant View() == MergeAll(parse, inspect, old(View()), list[..i])
        invariant toArm == S.ToArm(parse, old(configs), list[..i])
      {
        assert list[..i + 1][..i] == list[..i];
        MergeAllParts(parse, inspect, old(View()), list[..i]);
        var arm := MergeOne(list[i], inspect);
        if arm.Some? {
          toArm := toArm + [arm.value];
        }
      }
      assert list[..|list|] == list;
    }

    method ArmAll(toArm: seq<Config>)
      requires OwnsTimers()
      modifies this`heap, this`idleTimers
      ensures OwnsTimers() && Timers() == S.ArmAll(old(Timers()), toArm)
    {
      for i := 0 to |toArm|
        invariant OwnsTimers() && Timers() == S.ArmAll(old(Timers()), toArm[..i])
      {
        assert toArm[..i + 1][..i] == toArm[..i];
        ArmIdleTimer(toArm[i]);
      }
      assert toArm[..|toArm|] == toArm;
    }

    /** The part of a sync that holds the shared mutex. */
    method Reconcile(list: Listing, inspect: Inspector)
      returns (toArm: seq<Config>, ghost known: Configs, ghost dropped: seq<string>)
      requires Valid()
      modifies this`configs, this`heap, this`idleTimers, this`bootStarts, this`startedAt, this`startLocks, this`states
      modifies this`places, this`discarded, this`ipCache, this`ipCacheAt, this`events, this`recorded
      ensures Valid() && Inverts(known, old(configs))
      ensures DropsGone(known, dropped, list)
      ensures All() == Merged(parse, inspect, DropEach(old(All()), known, dropped), list)
      ensures toArm == S.ToArm(parse, DropEach(old(All()), known, dropped).maps.configs, list)
    {
      var reverse := BuildKnown();
      known := reverse;
      var found := FindListed(list, reverse);
      dropped := DropAll(reverse, found);
      ghost var left := All();
      toArm := MergeList(list, inspect);
      assert All() == Merged(parse, inspect, left, list);
    }

    /** A sync with the list that Docker gives: the merge under the mutex, then the timers. */
    method SyncListed(list: Listing, inspect: Inspector) returns (ghost known: Configs, ghost dropped: seq<string>)
      requires Valid()
      modifies this`configs, this`heap, this`idleTimers, this`bootStarts, this`startedAt, this`startLocks, this`states
      modifies this`places, this`discarded, this`ipCache, this`ipCacheAt, this`events, this`recorded, this`registered
      ensures Valid() && registered == |configs|
      ensures Inverts(known, old(configs)) && DropsGone(known, dropped, list)
      ensures All() == Synced(parse, inspect, old(All()), known, dropped, list)
    {
      var toArm;
      toArm, known, dropped := Reconcile(list, inspect);
      ArmSynced(toArm);
    }

    /** After the merge: the timers and the gauge of registered services. */
    method ArmSynced(toArm: seq<Config>)
      requires OwnsTimers()
      modifies this`heap, this`idleTimers, this`registered
      ensures OwnsTimers() && registered == |configs|
      ensures All() == old(All()).(timers := S.ArmAll(old(Timers()), toArm))
    {
      ArmAll(toArm);
      registered := |configs|;
    }

    /** The pass goes on record. */
    ghost method RecordPass(pass: Pass, before: Configs)
      requires before == Registry(parse, passes) && Possible(parse, passes)
      requires configs == After(parse, before, pass) && (pass.Resync? ==> Inverts(pass.known, before))
      modifies this`passes
      ensures FollowsPasses() && passes == old(passes) + [pass]
    {
      RegistryMore(parse, passes, pass);
      passes := passes + [pass];
    }

    /** syncContainers: when Docker does not answer nothing changes. */
    method SyncContainers(list: Option<Listing>, inspect: Inspector) returns (ghost known: Configs, ghost dropped: seq<string>)
      requires Valid() && FollowsPasses()
      modifies this`configs, this`heap, this`idleTimers, this`bootStarts, this`startedAt, this`startLocks, this`states
      modifies this`places, this`discarded, this`ipCache, this`ipCacheAt, this`events, this`recorded, this`registered
      modifies this`passes
      ensures Valid() && FollowsPasses()
      ensures list == None ==> All() == old(All()) && passes == old(passes)
      ensures list.Some? ==> passes == old(passes) + [Resync(known, list.value)] && registered == |configs|
      ensures list.Some? ==> Inverts(known, old(configs)) && DropsGone(known, dropped, list.value)
      ensures list.Some? ==> All() == Synced(parse, inspect, old(All()), known, dropped, list.value)
    {
      known, dropped := map[], [];
      if list.Some? {
        known, dropped := SyncListed(list.value, inspect);
        SyncIsPass(parse, inspect, old(All()), known, dropped, list.value);
        RecordPass(Resync(known, list.value), old(configs));
      }
    }

    method AdoptConfig(c: ContainerInfo)
      requires PlacesChannels() && KeysConfigs() && Parsed(parse, c).Some?
      modifies this`configs, this`states, this`places
      ensures PlacesChannels() && KeysConfigs()
      ensures View() ==
              old(View()).(configs := Put(parse, old(configs), c), states := Note(parse, old(View()).states, c, false))
    {
      var cfg := ConfigOf(parse, c);
      configs := configs[cfg.subdomain := cfg];
      if cfg.subdomain !in states {
        SetState(cfg.subdomain, c.state);
      }
    }

    method AdoptStart(cfg: Config, at: Option<int>)
      requires OwnsTimers()
      modifies this`startedAt, this`heap, this`idleTimers
      ensures OwnsTimers() && View() == old(View()).(started := Timed(old(startedAt), cfg.subdomain, at))
      ensures Timers() == if at.Some? then T.Arm(old(Timers()), cfg) else old(Timers())
    {
      if at.Some? {
        TakeStartTime(cfg.subdomain, at);
        ArmIdleTimer(cfg);
      }
    }

    /** One entry of the list at start-up: the registry, then the timer if the container is known to run. */
    method AdoptOne(c: ContainerInfo, inspect: Inspector)
      requires PlacesChannels() && KeysConfigs() && OwnsTimers()
      modifies this`configs, this`states, this`startedAt, this`places, this`heap, this`idleTimers
      ensures PlacesChannels() && KeysConfigs() && OwnsTimers()
      ensures View() == Adopt(parse, inspect, old(View()), c)
      ensures Timers() == AdoptTimer(parse, inspect, old(Timers()), c)
    {
      var parsed := Parsed(parse, c);
      if parsed.Some? {
        var cfg := ConfigOf(parse, c);
        AdoptConfig(c);
        AdoptStart(cfg, StartedByDiscovery(inspect, c));
      }
    }

    /** Discovery takes over the list, entry by entry. */
    method AdoptListed(list: Listing, inspect: Inspector)
      requires PlacesChannels() && KeysConfigs() && OwnsTimers()
      modifies this`configs, this`states, this`startedAt, this`places, this`heap, this`idleTimers
      ensures PlacesChannels() && KeysConfigs() && OwnsTimers()
      ensures View() == AdoptAll(parse, inspect, old(View()), list)
      ensures Timers() == AdoptTimers(parse, inspect, old(Timers()), list)
    {
      for i := 0 to |list|
        invariant PlacesChannels() && KeysConfigs() && OwnsTimers()
        invariant View() == AdoptAll(parse, inspect, old(View()), list[..i])
        invariant Timers() == AdoptTimers(parse, inspect, old(Timers()), list[..i])
      {
        assert list[..i + 1][..i] == list[..i];
        AdoptOne(list[i], inspect);
      }
      assert list[..|list|] == list;
    }

    /** discover: when Docker does not answer it fails and nothing changes. */
    method Discover(list: Option<Listing>, inspect: Inspector) returns (ok: bool)
      requires Valid() && FollowsPasses()
      modifies this`configs, this`states, this`startedAt, this`places, this`heap, this`idleTimers, this`passes
      ensures Valid() && FollowsPasses() && (ok <==> list.Some?)
      ensures passes == old(passes) + if ok then [Discovery(list.value)] else []
      ensures View() == if ok then AdoptAll(parse, inspect, old(View()), list.value) else old(View())
      ensures Timers() == if ok then AdoptTimers(parse, inspect, old(Timers()), list.value) else old(Timers())
    {
      ok := list.Some?;
      if ok {
        AdoptListed(list.value, inspect);
        DiscoveryIsPass(parse, inspect, old(View()), list.value);
        RecordPass(Discovery(list.value), old(configs));
      }
    }

    // handlers_status.go

    /** The history page: a registered service shows the last hundred of all events ever recorded for it, across
        disappearances, and its counts add up to what it shows. */
    method ServiceHistory(sub: string) returns (found: bool, evs: seq<Event>, counts: map<Kind, nat>)
      requires KeepsHistory()
      ensures found <==> sub in configs
      ensures found ==>
                var all := Of(recorded, sub);
                |evs| == (if |all| < 100 then |all| else 100) && evs == all[|all| - |evs|..]
      ensures found ==> Total(counts) == |evs| && forall k: Kind :: Get(counts, k, 0) == multiset(Kinds(evs))[k]
    {
      found, evs, counts := sub in configs, [], map[];
      if found {
        evs, counts := History(events, sub, recorded);
      }
    }
  }
}
