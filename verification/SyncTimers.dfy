/** Which entries of the timer table a sync leaves behind. An entry stands for a timer that may have fired already.

    A sync arms a timer for every running container it can parse, but only a configuration that it registers in the same
    pass has its container name filled in; for the others it arms the empty key. */
module SyncTimers {
  import opened Tally
  import opened Services
  import opened Reconcile
  import T = IdleTimers
  import L = Lifecycle

  const RUNNING: string := "running"

  /** The configuration a sync arms for `c`, given the registry at that moment. */
  function ArmedConfig(parse: Parser, configs: Configs, c: ContainerInfo): Config
    requires Parsed(parse, c).Some?
  {
    if Registers(parse, configs, c) then ConfigOf(parse, c) else Parsed(parse, c).value
  }

  predicate Runs(parse: Parser, c: ContainerInfo) {
    Parsed(parse, c).Some? && c.state == RUNNING
  }

  /** The configurations armed after the merge, in the order of the list. */
  function ToArm(parse: Parser, configs: Configs, list: Listing): seq<Config> {
    if list == [] then []
    else
      var front, c := list[..|list| - 1], list[|list| - 1];
      ToArm(parse, configs, front) + if Runs(parse, c) then [ArmedConfig(parse, RegisterAll(parse, configs, front), c)] else []
  }

  function ArmAll(t: T.Table, cfgs: seq<Config>): T.Table {
    if cfgs == [] then t else T.Arm(ArmAll(t, cfgs[..|cfgs| - 1]), cfgs[|cfgs| - 1])
  }

  /** The timers after a sync that drops the containers `dropped`. */
  function SyncTable(parse: Parser, t: T.Table, kept: Configs, dropped: seq<string>, list: Listing): T.Table {
    ArmAll(L.TakeAll(t, dropped), ToArm(parse, kept, list))
  }

  ghost predicate Arms(cfgs: seq<Config>, key: string) {
    exists cfg | cfg in cfgs :: !cfg.disableIdle && cfg.container == key
  }

  lemma {:induction false} ArmedKeys(t: T.Table, cfgs: seq<Config>, key: string)
    ensures key in ArmAll(t, cfgs).idle <==> key in t.idle || Arms(cfgs, key)
  {
    if cfgs != [] {
      var n := |cfgs| - 1;
      assert cfgs == cfgs[..n] + [cfgs[n]];
      ArmedKeys(t, cfgs[..n], key);
    }
  }

  lemma {:induction false} TakenKeys(t: T.Table, names: seq<string>, key: string)
    ensures key in L.TakeAll(t, names).idle <==> key in t.idle && key !in names
  {
    if names != [] {
      var n := |names| - 1;
      assert names == names[..n] + [names[n]];
      TakenKeys(t, names[..n], key);
    }
  }

  /** Entry `i` of the list, with the settings of `cfg`, is registered in this pass: its subdomain was routed elsewhere or
      nowhere, or an earlier entry has just taken it. */
  ghost predicate NewAs(parse: Parser, configs: Configs, list: Listing, i: nat, cfg: Config) {
    && i < |list|
    && (Claimed(parse, list[..i], cfg.subdomain) || cfg.subdomain !in configs
        || configs[cfg.subdomain].container != list[i].name)
  }

  ghost predicate New(parse: Parser, configs: Configs, list: Listing, i: nat) {
    i < |list| && exists cfg :: parse(list[i].labels) == Some(cfg) && NewAs(parse, configs, list, i, cfg)
  }

  lemma NewIsRegistered(parse: Parser, configs: Configs, list: Listing, i: nat, cfg: Config)
    requires i < |list| && parse(list[i].labels) == Some(cfg) && DistinctNames(list)
    ensures Registers(parse, RegisterAll(parse, configs, list[..i]), list[i]) <==> NewAs(parse, configs, list, i, cfg)
    ensures NewAs(parse, configs, list, i, cfg) <==> New(parse, configs, list, i)
  {
    var at := WinnerIsLast(parse, list[..i], cfg.subdomain);
    RegisterAllRoutes(parse, configs, list[..i], cfg.subdomain);
  }

  /** `cfg` is armed for entry `i`: the entry is running, and `cfg` are the settings of its labels, under its own name if it is
      registered in this pass and under the empty name if not. */
  ghost predicate ArmedBy(parse: Parser, configs: Configs, list: Listing, i: nat, cfg: Config) {
    && i < |list| && list[i].state == "running" && parse(list[i].labels).Some?
    && var said := parse(list[i].labels).value;
    && cfg == Named(said, if NewAs(parse, configs, list, i, said) then list[i].name else "")
  }

  lemma ArmsOne(parse: Parser, configs: Configs, list: Listing, cfg: Config)
    requires DistinctNames(list) && list != []
    ensures var n := |list| - 1;
            ArmedBy(parse, configs, list, n, cfg)
            <==> Runs(parse, list[n]) && cfg == ArmedConfig(parse, RegisterAll(parse, configs, list[..n]), list[n])
  {
    var c := list[|list| - 1];
    if Runs(parse, c) {
      NewIsRegistered(parse, configs, list, |list| - 1, parse(c.labels).value);
    }
  }

  lemma {:induction false} ToArmExactly(parse: Parser, configs: Configs, list: Listing, cfg: Config)
    requires DistinctNames(list)
    ensures cfg in ToArm(parse, configs, list) <==> exists i: nat :: ArmedBy(parse, configs, list, i, cfg)
  {
    if list != [] {
      var n := |list| - 1;
      var front := list[..n];
      ToArmExactly(parse, configs, front, cfg);
      ArmsOne(parse, configs, list, cfg);
      forall i: nat | i < n
        ensures ArmedBy(parse, configs, list, i, cfg) <==> ArmedBy(parse, configs, front, i, cfg)
      {
        assert front[..i] == list[..i] && front[i] == list[i];
      }
    }
  }

  /** A running service whose idle stop is enabled. */
  ghost predicate Watched(parse: Parser, c: ContainerInfo) {
    c.state == "running" && parse(c.labels).Some? && !parse(c.labels).value.disableIdle
  }

  ghost predicate ProperNames(list: Listing) {
    DistinctNames(list) && forall c | c in list :: c.name != ""
  }

  /** The configuration that is armed for a running entry. */
  ghost function ArmedAs(parse: Parser, configs: Configs, list: Listing, i: nat): Config
    requires i < |list| && parse(list[i].labels).Some?
  {
    var said := parse(list[i].labels).value;
    Named(said, if NewAs(parse, configs, list, i, said) then list[i].name else "")
  }

  /** After a sync a running container whose idle stop is enabled has an entry exactly if it had one before or was
      registered in this pass: a container that was already registered and then started by hand gets none. */
  lemma TimerAfterSync(parse: Parser, t: T.Table, kept: Configs, dropped: seq<string>, list: Listing, i: nat)
    requires ProperNames(list) && i < |list| && Watched(parse, list[i]) && list[i].name !in dropped
    ensures list[i].name in SyncTable(parse, t, kept, dropped, list).idle
            <==> list[i].name in t.idle || New(parse, kept, list, i)
  {
    var key := list[i].name;
    TakenKeys(t, dropped, key);
    ArmedKeys(L.TakeAll(t, dropped), ToArm(parse, kept, list), key);
    if Arms(ToArm(parse, kept, list), key) {
      var cfg :| cfg in ToArm(parse, kept, list) && !cfg.disableIdle && cfg.container == key;
      ToArmExactly(parse, kept, list, cfg);
      var j: nat :| ArmedBy(parse, kept, list, j, cfg);
      assert i == j;
    }
    if New(parse, kept, list, i) {
      ToArmExactly(parse, kept, list, ArmedAs(parse, kept, list, i));
      assert ArmedBy(parse, kept, list, i, ArmedAs(parse, kept, list, i));
    }
  }

  /** "Every running service has its entry after a sync" holds exactly if every one that was not registered in this
      pass had its entry before. */
  lemma AllTimedAfterSync(parse: Parser, t: T.Table, kept: Configs, dropped: seq<string>, list: Listing)
    requires ProperNames(list) && forall c | c in list :: c.name !in dropped
    ensures (forall i: nat | i < |list| && Watched(parse, list[i]) ::
               list[i].name in SyncTable(parse, t, kept, dropped, list).idle)
            <==> (forall i: nat | i < |list| && Watched(parse, list[i]) && !New(parse, kept, list, i) :: list[i].name in t.idle)
  {
    forall i: nat | i < |list| && Watched(parse, list[i])
      ensures list[i].name in SyncTable(parse, t, kept, dropped, list).idle
              <==> list[i].name in t.idle || New(parse, kept, list, i)
    {
      TimerAfterSync(parse, t, kept, dropped, list, i);
    }
  }

  /** What such containers get instead is one entry for the container with the empty name. */
  lemma NamelessTimer(parse: Parser, t: T.Table, kept: Configs, dropped: seq<string>, list: Listing)
    requires ProperNames(list)
    ensures "" in SyncTable(parse, t, kept, dropped, list).idle
            <==> || ("" in t.idle && "" !in dropped)
                 || exists i: nat :: i < |list| && Watched(parse, list[i]) && !New(parse, kept, list, i)
  {
    TakenKeys(t, dropped, "");
    ArmedKeys(L.TakeAll(t, dropped), ToArm(parse, kept, list), "");
    if Arms(ToArm(parse, kept, list), "") {
      var cfg :| cfg in ToArm(parse, kept, list) && !cfg.disableIdle && cfg.container == "";
      ToArmExactly(parse, kept, list, cfg);
      var j: nat :| ArmedBy(parse, kept, list, j, cfg);
      assert Watched(parse, list[j]) && !New(parse, kept, list, j);
    }
    if i: nat :| i < |list| && Watched(parse, list[i]) && !New(parse, kept, list, i) {
      ToArmExactly(parse, kept, list, ArmedAs(parse, kept, list, i));
      assert ArmedBy(parse, kept, list, i, ArmedAs(parse, kept, list, i));
    }
  }
}
