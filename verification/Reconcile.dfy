/** Which container serves which subdomain: the full rebuild of discovery and the incremental merge of a sync.

    Labels are parsed by a function that the model does not look into; the only field it never fills in is the
    container's name. */
module Reconcile {
  import opened Tally
  import opened Services

  type Parser = Labels -> Option<Config>
  type Configs = map<string, Config>
  type Listing = seq<ContainerInfo>

  function Opt<V>(m: map<string, V>, k: string): Option<V> {
    if k in m then Some(m[k]) else None
  }

  /** The parsed labels of a listed container, before its name is filled in. */
  function Parsed(parse: Parser, c: ContainerInfo): Option<Config> {
    match parse(c.labels)
    case None => None
    case Some(cfg) => Some(cfg.(container := ""))
  }

  /** Container `c` claims subdomain `sub`. */
  predicate Claims(parse: Parser, c: ContainerInfo, sub: string) {
    Parsed(parse, c).Some? && Parsed(parse, c).value.subdomain == sub
  }

  /** The configuration a container stands for. */
  function ConfigOf(parse: Parser, c: ContainerInfo): Config
    requires Parsed(parse, c).Some?
  {
    Parsed(parse, c).value.(container := c.name)
  }

  /** Discovery registers every container it can parse. */
  function Put(parse: Parser, configs: Configs, c: ContainerInfo): Configs {
    match Parsed(parse, c)
    case None => configs
    case Some(cfg) => configs[cfg.subdomain := ConfigOf(parse, c)]
  }

  /** A sync registers a container only when its subdomain is not yet routed to it. */
  predicate Registers(parse: Parser, configs: Configs, c: ContainerInfo) {
    match Parsed(parse, c)
    case None => false
    case Some(cfg) => cfg.subdomain !in configs || configs[cfg.subdomain].container != c.name
  }

  function Register(parse: Parser, configs: Configs, c: ContainerInfo): Configs {
    if Registers(parse, configs, c) then Put(parse, configs, c) else configs
  }

  function PutAll(parse: Parser, configs: Configs, list: Listing): Configs {
    if list == [] then configs else Put(parse, PutAll(parse, configs, list[..|list| - 1]), list[|list| - 1])
  }

  function RegisterAll(parse: Parser, configs: Configs, list: Listing): Configs {
    if list == [] then configs else Register(parse, RegisterAll(parse, configs, list[..|list| - 1]), list[|list| - 1])
  }

  /** The registry that discovery builds from nothing. */
  function Rebuild(parse: Parser, list: Listing): Configs {
    PutAll(parse, map[], list)
  }

  predicate Listed(list: Listing, name: string) {
    exists c | c in list :: c.name == name
  }

  predicate Claimed(parse: Parser, list: Listing, sub: string) {
    exists c | c in list :: Claims(parse, c, sub)
  }

  /** The reverse map a sync builds first: for every registered container one of the services registered to it. */
  ghost predicate Inverts(known: Configs, configs: Configs) {
    && (forall sub | sub in configs :: configs[sub].container in known)
    && (forall name | name in known ::
          && known[name].container == name
          && known[name].subdomain in configs
          && configs[known[name].subdomain] == known[name])
  }

  ghost predicate WellKeyed(configs: Configs) {
    forall sub | sub in configs :: configs[sub].subdomain == sub
  }

  /** The service is dropped: its container is gone and the reverse map remembers this service for it. */
  predicate Drops(configs: Configs, known: Configs, list: Listing, sub: string) {
    && sub in configs
    && !Listed(list, configs[sub].container)
    && configs[sub].container in known
    && known[configs[sub].container].subdomain == sub
  }

  function Kept(configs: Configs, known: Configs, list: Listing): Configs {
    map sub | sub in configs && !Drops(configs, known, list, sub) :: configs[sub]
  }

  function Sync(parse: Parser, configs: Configs, known: Configs, list: Listing): Configs {
    RegisterAll(parse, Kept(configs, known, list), list)
  }

  /** Subdomain to container. */
  function Routes(configs: Configs): map<string, string> {
    map sub | sub in configs :: configs[sub].container
  }

  // What the two loops leave for one subdomain

  /** The last listed container that claims `sub`. */
  function Winner(parse: Parser, list: Listing, sub: string): Option<ContainerInfo> {
    if list == [] then None
    else if Claims(parse, list[|list| - 1], sub) then Some(list[|list| - 1])
    else Winner(parse, list[..|list| - 1], sub)
  }

  /** The labels of `c` say that it serves `sub`, with the settings of `cfg`. */
  ghost predicate Says(parse: Parser, c: ContainerInfo, sub: string, cfg: Config) {
    parse(c.labels) == Some(cfg) && cfg.subdomain == sub
  }

  /** The settings of `cfg` for the container `name`, field by field. */
  ghost function Named(cfg: Config, name: string): Config {
    Config(cfg.subdomain, name, cfg.targetPort, cfg.idleTimeout, cfg.startupTimeout, cfg.healthPath, cfg.disableIdle,
           cfg.strategy)
  }

  lemma ClaimsIsSays(parse: Parser, c: ContainerInfo, sub: string)
    ensures Claims(parse, c, sub) <==> exists cfg :: Says(parse, c, sub, cfg)
    ensures forall cfg | Says(parse, c, sub, cfg) :: ConfigOf(parse, c) == Named(cfg, c.name)
  {
    if Claims(parse, c, sub) {
      assert Says(parse, c, sub, parse(c.labels).value);
    }
  }

  /** The winner really is the last one: nothing behind it claims the subdomain. */
  lemma {:induction false} WinnerIsLast(parse: Parser, list: Listing, sub: string) returns (i: int)
    ensures Claimed(parse, list, sub) <==> Winner(parse, list, sub).Some?
    ensures Winner(parse, list, sub).Some? <==> exists c, cfg | c in list :: Says(parse, c, sub, cfg)
    ensures Winner(parse, list, sub).Some? ==>
              && 0 <= i < |list| && Winner(parse, list, sub) == Some(list[i]) && Claims(parse, list[i], sub)
              && (exists cfg :: Says(parse, list[i], sub, cfg))
    ensures Winner(parse, list, sub).Some? ==>
              forall j | i < j < |list| :: !Claims(parse, list[j], sub) && !exists cfg :: Says(parse, list[j], sub, cfg)
  {
    i := -1;
    if list != [] {
      var n := |list| - 1;
      assert list == list[..n] + [list[n]];
      ClaimsIsSays(parse, list[n], sub);
      if Claims(parse, list[n], sub) {
        i := n;
      } else {
        i := WinnerIsLast(parse, list[..n], sub);
      }
    }
  }

  /** Discovery: the last listed container wins, with the settings its labels give and under its own name. */
  lemma {:induction false} PutAllAt(parse: Parser, configs: Configs, list: Listing, sub: string)
    ensures Opt(PutAll(parse, configs, list), sub) ==
            var w := Winner(parse, list, sub);
            if w.Some? && Parsed(parse, w.value).Some? then Some(ConfigOf(parse, w.value)) else Opt(configs, sub)
    ensures Winner(parse, list, sub).Some? ==> Claims(parse, Winner(parse, list, sub).value, sub)
    ensures var w := Winner(parse, list, sub);
            if w.Some? then
              exists cfg | Says(parse, w.value, sub, cfg) ::
                Opt(PutAll(parse, configs, list), sub) == Some(Named(cfg, w.value.name))
            else Opt(PutAll(parse, configs, list), sub) == Opt(configs, sub)
  {
    if list != [] {
      PutAllAt(parse, configs, list[..|list| - 1], sub);
      ClaimsIsSays(parse, list[|list| - 1], sub);
    }
  }

  /** A sync registers nothing but what labels say: a service has the configuration it had or that of a listed container. */
  lemma {:induction false} RegisterAllSays(parse: Parser, configs: Configs, list: Listing, sub: string)
    ensures var after := Opt(RegisterAll(parse, configs, list), sub);
            || after == Opt(configs, sub)
            || exists c, cfg | c in list && Says(parse, c, sub, cfg) :: after == Some(Named(cfg, c.name))
  {
    if list != [] {
      var front, c := list[..|list| - 1], list[|list| - 1];
      RegisterAllSays(parse, configs, front, sub);
      ClaimsIsSays(parse, c, sub);
      assert list == front + [c];
    }
  }

  /** Every listed container that claims `sub` is called `name`. */
  ghost predicate OnlyName(parse: Parser, list: Listing, sub: string, name: string) {
    forall c | c in list && Claims(parse, c, sub) :: c.name == name
  }

  /** A sync: the last listed container wins as well. */
  lemma {:induction false} RegisterAllRoutes(parse: Parser, configs: Configs, list: Listing, sub: string)
    ensures var w, after := Winner(parse, list, sub), RegisterAll(parse, configs, list);
            if w.Some? then sub in after && after[sub].container == w.value.name
            else Opt(after, sub) == Opt(configs, sub)
  {
    if list != [] {
      RegisterAllRoutes(parse, configs, list[..|list| - 1], sub);
    }
  }

  /** A service whose container is the only one to claim its subdomain keeps the configuration it had. */
  lemma {:induction false} OnlyNameKeeps(parse: Parser, configs: Configs, list: Listing, sub: string)
    requires sub in configs && OnlyName(parse, list, sub, configs[sub].container)
    ensures Opt(RegisterAll(parse, configs, list), sub) == Some(configs[sub])
  {
    if list != [] {
      var n := |list| - 1;
      assert list == list[..n] + [list[n]];
      OnlyNameKeeps(parse, configs, list[..n], sub);
    }
  }

  ghost predicate DistinctNames(list: Listing) {
    forall i, j | 0 <= i < j < |list| :: list[i].name != list[j].name
  }

  /** A claimant that is not the container the service is routed to brings its own configuration. */
  lemma NewcomerRefreshes(parse: Parser, configs: Configs, front: Listing, c: ContainerInfo, sub: string)
    requires Claims(parse, c, sub) && forall d | d in front :: d.name != c.name
    requires Claimed(parse, front, sub) || sub !in configs || configs[sub].container != c.name
    ensures Opt(Register(parse, RegisterAll(parse, configs, front), c), sub) == Some(ConfigOf(parse, c))
  {
    var i := WinnerIsLast(parse, front, sub);
    RegisterAllRoutes(parse, configs, front, sub);
  }

  /** Any other claimed service gets the winner's configuration. */
  lemma {:induction false} OtherwiseRefreshed(parse: Parser, configs: Configs, list: Listing, sub: string)
    requires DistinctNames(list) && Claimed(parse, list, sub)
    requires sub !in configs || !OnlyName(parse, list, sub, configs[sub].container)
    ensures Opt(RegisterAll(parse, configs, list), sub) == Opt(Rebuild(parse, list), sub)
  {
    var front, c := list[..|list| - 1], list[|list| - 1];
    assert list == front + [c];
    if Claims(parse, c, sub) {
      NewcomerRefreshes(parse, configs, front, c, sub);
    } else {
      assert Claimed(parse, front, sub);
      OtherwiseRefreshed(parse, configs, front, sub);
    }
  }

  // A sync against a rebuild

  /** A sync routes as a rebuild would, exactly when every registered service that no listed container claims any more
      is dropped: its container is gone and the reverse map remembers it. Nothing is assumed about the labels. */
  lemma SyncRoutesAsRebuild(parse: Parser, configs: Configs, known: Configs, list: Listing)
    requires WellKeyed(configs) && Inverts(known, configs)
    ensures Routes(Sync(parse, configs, known, list)) == Routes(Rebuild(parse, list))
            <==> forall sub | sub in configs && !Claimed(parse, list, sub) :: Drops(configs, known, list, sub)
  {
    var after, built := Sync(parse, configs, known, list), Rebuild(parse, list);
    forall sub
      ensures Claimed(parse, list, sub) ==> Opt(Routes(after), sub) == Opt(Routes(built), sub) && sub in after
      ensures !Claimed(parse, list, sub) ==> sub !in built && (sub in after <==> sub in Kept(configs, known, list))
    {
      SyncAt(parse, configs, known, list, sub);
    }
    if forall sub | sub in configs && !Claimed(parse, list, sub) :: Drops(configs, known, list, sub) {
      assert forall sub :: Opt(Routes(after), sub) == Opt(Routes(built), sub);
      SameEverywhere(Routes(after), Routes(built));
    } else {
      var sub :| sub in configs && !Claimed(parse, list, sub) && !Drops(configs, known, list, sub);
      assert sub in Routes(after) && sub !in Routes(built);
    }
  }

  /** With one service per container the condition is that the container is gone. */
  lemma UnsharedSyncRoutesAsRebuild(parse: Parser, configs: Configs, known: Configs, list: Listing)
    requires WellKeyed(configs) && Inverts(known, configs) && OneServiceEach(configs)
    ensures Routes(Sync(parse, configs, known, list)) == Routes(Rebuild(parse, list))
            <==> forall sub | sub in configs && !Claimed(parse, list, sub) :: !Listed(list, configs[sub].container)
  {
    SyncRoutesAsRebuild(parse, configs, known, list);
  }

  lemma SyncAt(parse: Parser, configs: Configs, known: Configs, list: Listing, sub: string)
    ensures var after, built := Sync(parse, configs, known, list), Rebuild(parse, list);
            && (Claimed(parse, list, sub) ==>
                  sub in after && sub in built && Opt(Routes(after), sub) == Opt(Routes(built), sub))
            && (!Claimed(parse, list, sub) ==>
                  sub !in built && Opt(after, sub) == Opt(Kept(configs, known, list), sub))
  {
    var i := WinnerIsLast(parse, list, sub);
    RegisterAllRoutes(parse, Kept(configs, known, list), list, sub);
    PutAllAt(parse, map[], list, sub);
  }

  lemma SameEverywhere<V>(m: map<string, V>, n: map<string, V>)
    requires forall k :: Opt(m, k) == Opt(n, k)
    ensures m == n
  {
    assert forall k :: k in m <==> Opt(m, k).Some?;
    assert forall k :: k in n <==> Opt(n, k).Some?;
  }

  /** A container that is relabelled while it stays listed keeps its old subdomain routed for as long as nobody else
      claims that subdomain, through any number of syncs; a rebuild would not have it. */
  lemma RelabelledStays(parse: Parser, configs: Configs, known: Configs, list: Listing, sub: string)
    requires sub in configs && Listed(list, configs[sub].container) && !Claimed(parse, list, sub)
    ensures Opt(Sync(parse, configs, known, list), sub) == Some(configs[sub])
    ensures sub !in Rebuild(parse, list)
  {
    SyncAt(parse, configs, known, list, sub);
  }

  /** New settings of a registered container take effect exactly when another container claims its subdomain as well, or
      when they are the old settings: the labels of a running service are not picked up. */
  lemma SettingsPickedUp(parse: Parser, configs: Configs, known: Configs, list: Listing, sub: string)
    requires DistinctNames(list) && sub in configs && Claimed(parse, list, sub) && Listed(list, configs[sub].container)
    ensures Opt(Sync(parse, configs, known, list), sub) == Opt(Rebuild(parse, list), sub)
            <==> !OnlyName(parse, list, sub, configs[sub].container) || Some(configs[sub]) == Opt(Rebuild(parse, list), sub)
  {
    var kept := Kept(configs, known, list);
    assert sub in kept && kept[sub] == configs[sub];
    if OnlyName(parse, list, sub, configs[sub].container) {
      OnlyNameKeeps(parse, kept, list, sub);
    } else {
      OtherwiseRefreshed(parse, kept, list, sub);
    }
  }

  // A second sync

  /** A pass leaves `sub` as it was, and every claimant bears the name it had. */
  ghost predicate Passes(parse: Parser, before: Option<Config>, after: Option<Config>, list: Listing, sub: string) {
    && after == before
    && (after.Some? ==> OnlyName(parse, list, sub, after.value.container))
    && (after == None ==> !Claimed(parse, list, sub))
  }

  lemma PassesMore(parse: Parser, before: Option<Config>, after: Option<Config>, list: Listing, c: ContainerInfo, sub: string)
    requires Passes(parse, before, after, list, sub)
    requires Claims(parse, c, sub) ==> after.Some? && after.value.container == c.name
    ensures Passes(parse, before, after, list + [c], sub)
  {
  }

  /** What one claimant does to the subdomain. */
  function Registered(parse: Parser, o: Option<Config>, c: ContainerInfo, sub: string): Option<Config> {
    if Claims(parse, c, sub) && (o == None || o.value.container != c.name) then Some(ConfigOf(parse, c)) else o
  }

  lemma RegisteredAt(parse: Parser, configs: Configs, c: ContainerInfo, sub: string)
    ensures Opt(Register(parse, configs, c), sub) == Registered(parse, Opt(configs, sub), c, sub)
  {
  }

  /** What stands for `sub` after the claimants in `list`. */
  ghost predicate Routed(parse: Parser, o: Option<Config>, list: Listing, sub: string) {
    var w := Winner(parse, list, sub);
    w.Some? ==> o.Some? && o.value.container == w.value.name
  }

  lemma MeetOrPass(parse: Parser, a: Option<Config>, b: Option<Config>, x: Option<Config>, y: Option<Config>, list: Listing,
                   c: ContainerInfo, sub: string)
    requires x == y || Passes(parse, a, x, list, sub) || Passes(parse, b, y, list, sub)
    requires Routed(parse, x, list, sub) && Routed(parse, y, list, sub)
    requires Winner(parse, list, sub) == None ==> !Claimed(parse, list, sub) && x == a && y == b
    ensures var x', y' := Registered(parse, x, c, sub), Registered(parse, y, c, sub);
            x' == y' || Passes(parse, a, x', list + [c], sub) || Passes(parse, b, y', list + [c], sub)
  {
    if Passes(parse, a, x, list, sub) && (Claims(parse, c, sub) ==> x.Some? && x.value.container == c.name) {
      PassesMore(parse, a, x, list, c, sub);
    } else if Passes(parse, b, y, list, sub) && (Claims(parse, c, sub) ==> y.Some? && y.value.container == c.name) {
      PassesMore(parse, b, y, list, c, sub);
    }
  }

  /** From any two registries a pass makes the same of a subdomain, or one of them it leaves alone. */
  lemma {:induction false} PassTwice(parse: Parser, a: Configs, b: Configs, list: Listing, sub: string)
    ensures var x, y := Opt(RegisterAll(parse, a, list), sub), Opt(RegisterAll(parse, b, list), sub);
            x == y || Passes(parse, Opt(a, sub), x, list, sub) || Passes(parse, Opt(b, sub), y, list, sub)
  {
    if list != [] {
      var front, c := list[..|list| - 1], list[|list| - 1];
      assert list == front + [c];
      PassTwice(parse, a, b, front, sub);
      RegisterAllRoutes(parse, a, front, sub);
      RegisterAllRoutes(parse, b, front, sub);
      var i := WinnerIsLast(parse, front, sub);
      var x, y := RegisterAll(parse, a, front), RegisterAll(parse, b, front);
      RegisteredAt(parse, x, c, sub);
      RegisteredAt(parse, y, c, sub);
      MeetOrPass(parse, Opt(a, sub), Opt(b, sub), Opt(x, sub), Opt(y, sub), front, c, sub);
    }
  }

  lemma PassIdempotent(parse: Parser, configs: Configs, list: Listing)
    ensures RegisterAll(parse, RegisterAll(parse, configs, list), list) == RegisterAll(parse, configs, list)
  {
    var once := RegisterAll(parse, configs, list);
    var twice := RegisterAll(parse, once, list);
    forall sub
      ensures Opt(once, sub) == Opt(twice, sub)
    {
      PassTwice(parse, configs, once, list, sub);
      var i := WinnerIsLast(parse, list, sub);
      RegisterAllRoutes(parse, configs, list, sub);
      RegisterAllRoutes(parse, once, list, sub);
      if sub in configs && OnlyName(parse, list, sub, configs[sub].container) {
        OnlyNameKeeps(parse, configs, list, sub);
        OnlyNameKeeps(parse, once, list, sub);
      }
    }
    SameEverywhere(once, twice);
  }

  /** A second sync of the same list changes nothing exactly when the first one has left no service whose container is
      gone; it can leave one when two services were registered to the same container. */
  lemma SecondSyncChangesNothing(parse: Parser, configs: Configs, known: Configs, list: Listing, known': Configs)
    requires var once := Sync(parse, configs, known, list);
             WellKeyed(once) && Inverts(known', once)
    ensures var once := Sync(parse, configs, known, list);
            Sync(parse, once, known', list) == once <==> forall sub | sub in once :: Listed(list, once[sub].container)
  {
    var once := Sync(parse, configs, known, list);
    var twice := Sync(parse, once, known', list);
    if forall sub | sub in once :: Listed(list, once[sub].container) {
      assert Kept(once, known', list) == once;
      PassIdempotent(parse, Kept(configs, known, list), list);
    } else {
      var gone :| gone in once && !Listed(list, once[gone].container);
      var sub := known'[once[gone].container].subdomain;
      assert Drops(once, known', list, sub);
      var i := WinnerIsLast(parse, list, sub);
      SyncAt(parse, configs, known, list, sub);
      RegisterAllRoutes(parse, Kept(configs, known, list), list, sub);
      SyncAt(parse, once, known', list, sub);
      assert sub in once && sub !in twice;
    }
  }

  ghost predicate OneServiceEach(configs: Configs) {
    forall a, b | a in configs && b in configs && configs[a].container == configs[b].container :: a == b
  }

  /** With one service per container, one sync always settles the registry. */
  lemma OneSyncSettles(parse: Parser, configs: Configs, known: Configs, list: Listing, known': Configs)
    requires WellKeyed(configs) && Inverts(known, configs) && OneServiceEach(configs)
    requires Inverts(known', Sync(parse, configs, known, list))
    ensures Sync(parse, Sync(parse, configs, known, list), known', list) == Sync(parse, configs, known, list)
  {
    var once := Sync(parse, configs, known, list);
    SyncKeepsKeys(parse, configs, known, list);
    forall sub | sub in once
      ensures Listed(list, once[sub].container)
    {
      var i := WinnerIsLast(parse, list, sub);
      SyncAt(parse, configs, known, list, sub);
      RegisterAllRoutes(parse, Kept(configs, known, list), list, sub);
    }
    SecondSyncChangesNothing(parse, configs, known, list, known');
  }

  // Runs

  lemma {:induction false} RegisterAllKeyed(parse: Parser, configs: Configs, list: Listing)
    requires WellKeyed(configs)
    ensures WellKeyed(RegisterAll(parse, configs, list)) && WellKeyed(PutAll(parse, configs, list))
  {
    if list != [] {
      RegisterAllKeyed(parse, configs, list[..|list| - 1]);
    }
  }

  lemma SyncKeepsKeys(parse: Parser, configs: Configs, known: Configs, list: Listing)
    requires WellKeyed(configs)
    ensures WellKeyed(Sync(parse, configs, known, list))
  {
    RegisterAllKeyed(parse, Kept(configs, known, list), list);
  }

  /** What the registry's owner does: discovery at start-up and the syncs of the watcher. */
  datatype Pass = Discovery(list: Listing) | Resync(known: Configs, list: Listing)

  function After(parse: Parser, configs: Configs, pass: Pass): Configs {
    match pass
    case Discovery(list) => PutAll(parse, configs, list)
    case Resync(known, list) => Sync(parse, configs, known, list)
  }

  function Registry(parse: Parser, passes: seq<Pass>): Configs {
    if passes == [] then map[] else After(parse, Registry(parse, passes[..|passes| - 1]), passes[|passes| - 1])
  }

  /** Every sync works from a reverse map of the registry it finds. */
  ghost predicate Possible(parse: Parser, passes: seq<Pass>) {
    passes == []
    || (&& Possible(parse, passes[..|passes| - 1])
        && (passes[|passes| - 1].Resync? ==>
              Inverts(passes[|passes| - 1].known, Registry(parse, passes[..|passes| - 1]))))
  }

  lemma RegistryMore(parse: Parser, passes: seq<Pass>, pass: Pass)
    ensures Registry(parse, passes + [pass]) == After(parse, Registry(parse, passes), pass)
    ensures Possible(parse, passes + [pass])
            <==> Possible(parse, passes) && (pass.Resync? ==> Inverts(pass.known, Registry(parse, passes)))
  {
    assert (passes + [pass])[..|passes|] == passes;
  }

  lemma OneListed(parse: Parser, configs: Configs, c: ContainerInfo)
    ensures RegisterAll(parse, configs, [c]) == Register(parse, configs, c)
    ensures PutAll(parse, configs, [c]) == Put(parse, configs, c)
    ensures forall name :: Listed([c], name) <==> c.name == name
    ensures forall sub :: Claimed(parse, [c], sub) <==> Claims(parse, c, sub)
  {
    assert [c][..0] == [] && c in [c];
  }

  /** A container that is discovered and then relabelled. */
  function Relabelling(parse: Parser, before: ContainerInfo, after: ContainerInfo): seq<Pass>
    requires Parsed(parse, before).Some?
  {
    [Discovery([before]), Resync(map[before.name := ConfigOf(parse, before)], [after])]
  }

  /** A run in which a relabelled container ends up serving both its old and its new subdomain. */
  lemma RelabelledRun(parse: Parser, before: ContainerInfo, after: ContainerInfo)
    requires Parsed(parse, before).Some? && Parsed(parse, after).Some? && before.name == after.name
    requires Parsed(parse, before).value.subdomain != Parsed(parse, after).value.subdomain
    ensures var passes, a, b := Relabelling(parse, before, after), ConfigOf(parse, before), ConfigOf(parse, after);
            && Possible(parse, passes)
            && Registry(parse, passes) == map[a.subdomain := a, b.subdomain := b]
            && Rebuild(parse, [after]) == map[b.subdomain := b]
  {
    var a := ConfigOf(parse, before);
    var first := [Discovery([before])];
    OneListed(parse, map[], before);
    OneListed(parse, map[], after);
    OneListed(parse, map[a.subdomain := a], after);
    assert first == [] + first;
    RegistryMore(parse, [], Discovery([before]));
    RegistryMore(parse, first, Resync(map[before.name := a], [after]));
    assert Relabelling(parse, before, after) == first + [Resync(map[before.name := a], [after])];
    assert Kept(map[a.subdomain := a], map[before.name := a], [after]) == map[a.subdomain := a];
  }

  /** Two services on one container that is gone: the reverse map remembers one of them, and the sync drops that one. */
  lemma DropsOneOfTwo(parse: Parser, a: Config, b: Config)
    requires a.subdomain != b.subdomain && a.container == b.container
    ensures var configs := map[a.subdomain := a, b.subdomain := b];
            && Inverts(map[a.container := a], configs)
            && Sync(parse, configs, map[a.container := a], []) == map[b.subdomain := b]
    ensures Sync(parse, map[b.subdomain := b], map[b.container := b], []) == map[]
  {
    assert !Listed([], a.container);
  }

  /** A second sync of the same list can change something, in a run of the code: after a relabelled container is gone, one
      sync drops one of its two services, and only the next one drops the other. */
  lemma SharedContainerNeedsTwoSyncs(parse: Parser, before: ContainerInfo, after: ContainerInfo)
    requires Parsed(parse, before).Some? && Parsed(parse, after).Some? && before.name == after.name
    requires Parsed(parse, before).value.subdomain != Parsed(parse, after).value.subdomain
    ensures var a, b := ConfigOf(parse, before), ConfigOf(parse, after);
            var once := Relabelling(parse, before, after) + [Resync(map[a.container := a], [])];
            var twice := once + [Resync(map[b.container := b], [])];
            && Possible(parse, twice)
            && Registry(parse, once) == map[b.subdomain := b]
            && Registry(parse, twice) == map[]
  {
    var a, b := ConfigOf(parse, before), ConfigOf(parse, after);
    var passes := Relabelling(parse, before, after);
    RelabelledRun(parse, before, after);
    DropsOneOfTwo(parse, a, b);
    RegistryMore(parse, passes, Resync(map[a.container := a], []));
    RegistryMore(parse, passes + [Resync(map[a.container := a], [])], Resync(map[b.container := b], []));
  }

  ghost predicate Follows(list: Listing, labels: string -> Labels) {
    forall c | c in list :: c.labels == labels(c.name)
  }

  /** A container's labels never change. */
  ghost predicate Stable(passes: seq<Pass>, labels: string -> Labels) {
    forall pass | pass in passes :: Follows(pass.list, labels)
  }

  /** Each configuration is what its container's labels say. */
  ghost predicate Faithful(parse: Parser, configs: Configs, labels: string -> Labels) {
    forall sub | sub in configs ::
      var c := ContainerInfo(configs[sub].container, labels(configs[sub].container), "");
      Claims(parse, c, sub) && configs[sub] == ConfigOf(parse, c)
  }

  lemma {:induction false} PassFaithful(parse: Parser, configs: Configs, list: Listing, labels: string -> Labels)
    requires Faithful(parse, configs, labels) && Follows(list, labels)
    ensures Faithful(parse, RegisterAll(parse, configs, list), labels)
    ensures Faithful(parse, PutAll(parse, configs, list), labels)
  {
    if list != [] {
      PassFaithful(parse, configs, list[..|list| - 1], labels);
      assert list[|list| - 1] in list;
    }
  }

  lemma {:induction false} RunFaithful(parse: Parser, passes: seq<Pass>, labels: string -> Labels)
    requires Stable(passes, labels)
    ensures Faithful(parse, Registry(parse, passes), labels)
  {
    if passes != [] {
      var pass := passes[|passes| - 1];
      var before := Registry(parse, passes[..|passes| - 1]);
      RunFaithful(parse, passes[..|passes| - 1], labels);
      assert pass in passes;
      PassFaithful(parse, before, pass.list, labels);
      if pass.Resync? {
        assert Faithful(parse, Kept(before, pass.known, pass.list), labels);
        PassFaithful(parse, Kept(before, pass.known, pass.list), pass.list, labels);
      }
    }
  }

  lemma FaithfulKeys(parse: Parser, configs: Configs, labels: string -> Labels)
    requires Faithful(parse, configs, labels)
    ensures WellKeyed(configs) && OneServiceEach(configs)
  {
  }

  lemma ListedIsClaimed(parse: Parser, configs: Configs, list: Listing, labels: string -> Labels, sub: string)
    requires Faithful(parse, configs, labels) && Follows(list, labels)
    requires sub in configs && Listed(list, configs[sub].container)
    ensures Claimed(parse, list, sub)
  {
    var c :| c in list && c.name == configs[sub].container;
    assert Claims(parse, c, sub);
  }

  /** Incremental sync equals rebuild: as long as labels do not change, a sync leaves from any reachable registry exactly the
      configurations, not only the routes, that discovery would build from nothing on the same list, and a second one
      changes nothing. */
  lemma {:induction false} SyncIsRebuild(parse: Parser, passes: seq<Pass>, known: Configs, list: Listing, labels: string -> Labels)
    requires Stable(passes, labels) && Follows(list, labels)
    requires Inverts(known, Registry(parse, passes))
    ensures Sync(parse, Registry(parse, passes), known, list) == Rebuild(parse, list)
    ensures forall known': Configs | Inverts(known', Rebuild(parse, list)) ::
              Sync(parse, Rebuild(parse, list), known', list) == Rebuild(parse, list)
  {
    var configs := Registry(parse, passes);
    var kept := Kept(configs, known, list);
    var after, built := Sync(parse, configs, known, list), Rebuild(parse, list);
    RunFaithful(parse, passes, labels);
    FaithfulKeys(parse, configs, labels);
    PassFaithful(parse, kept, list, labels);
    PassFaithful(parse, map[], list, labels);
    forall sub
      ensures Opt(after, sub) == Opt(built, sub)
    {
      SyncAt(parse, configs, known, list, sub);
      if sub in configs && Listed(list, configs[sub].container) {
        ListedIsClaimed(parse, configs, list, labels, sub);
      }
    }
    SameEverywhere(after, built);
    forall known': Configs | Inverts(known', built)
      ensures Sync(parse, built, known', list) == built
    {
      OneSyncSettles(parse, configs, known, list, known');
    }
  }

  // Observed states

  type States = map<string, string>

  /** Discovery notes the state of a service it has not seen; a sync overwrites it. */
  function Note(parse: Parser, states: States, c: ContainerInfo, overwrite: bool): States {
    match Parsed(parse, c)
    case None => states
    case Some(cfg) => if cfg.subdomain in states && !overwrite then states else states[cfg.subdomain := c.state]
  }

  function NoteAll(parse: Parser, states: States, list: Listing, overwrite: bool): States {
    if list == [] then states
    else Note(parse, NoteAll(parse, states, list[..|list| - 1], overwrite), list[|list| - 1], overwrite)
  }

  function StatesAfter(parse: Parser, configs: Configs, states: States, pass: Pass): States {
    match pass
    case Discovery(list) => NoteAll(parse, states, list, false)
    case Resync(known, list) =>
      NoteAll(parse, map sub | sub in states && !Drops(configs, known, list, sub) :: states[sub], list, true)
  }

  function Observed(parse: Parser, passes: seq<Pass>): States {
    if passes == [] then map[]
    else
      var before := passes[..|passes| - 1];
      StatesAfter(parse, Registry(parse, before), Observed(parse, before), passes[|passes| - 1])
  }

  lemma {:induction false} SameKeys(parse: Parser, configs: Configs, states: States, list: Listing, overwrite: bool)
    requires configs.Keys == states.Keys
    ensures RegisterAll(parse, configs, list).Keys == NoteAll(parse, states, list, overwrite).Keys
    ensures PutAll(parse, configs, list).Keys == NoteAll(parse, states, list, overwrite).Keys
  {
    if list != [] {
      SameKeys(parse, configs, states, list[..|list| - 1], overwrite);
    }
  }

  /** Over every run of discoveries and syncs exactly the registered services have a state. */
  lemma {:induction false} StatesTrackConfigs(parse: Parser, passes: seq<Pass>)
    ensures Registry(parse, passes).Keys == Observed(parse, passes).Keys
  {
    if passes != [] {
      var before := passes[..|passes| - 1];
      var configs, states := Registry(parse, before), Observed(parse, before);
      StatesTrackConfigs(parse, before);
      match passes[|passes| - 1]
      case Discovery(list) => SameKeys(parse, configs, states, list, false);
      case Resync(known, list) =>
        var left := map sub | sub in states && !Drops(configs, known, list, sub) :: states[sub];
        assert Kept(configs, known, list).Keys == left.Keys;
        SameKeys(parse, Kept(configs, known, list), left, list, true);
    }
  }

  /** After a sync the state of a claimed service is the one listed with the container that serves it; a second sync of
      the same list finds every state as it is. */
  lemma {:induction false} StateIsWinners(parse: Parser, states: States, list: Listing, sub: string)
    ensures var w := Winner(parse, list, sub);
            Opt(NoteAll(parse, states, list, true), sub) == if w.Some? then Some(w.value.state) else Opt(states, sub)
  {
    if list != [] {
      StateIsWinners(parse, states, list[..|list| - 1], sub);
    }
  }

  /** The first listed container that claims `sub`. */
  ghost predicate FirstToSay(parse: Parser, list: Listing, sub: string, i: nat) {
    && i < |list| && (exists cfg :: Says(parse, list[i], sub, cfg))
    && (forall j | 0 <= j < i :: !exists cfg :: Says(parse, list[j], sub, cfg))
  }

  /** Discovery, unlike a sync, notes the state of the first claimant of a service that has none yet. */
  lemma {:induction false} StateIsFirst(parse: Parser, states: States, list: Listing, sub: string)
    ensures var after := Opt(NoteAll(parse, states, list, false), sub);
            && (sub in states ==> after == Some(states[sub]))
            && (sub !in states ==>
                  && (after == None <==> forall i | 0 <= i < |list| :: !exists cfg :: Says(parse, list[i], sub, cfg))
                  && forall i: nat | FirstToSay(parse, list, sub, i) :: after == Some(list[i].state))
  {
    if list != [] {
      var n := |list| - 1;
      var front := list[..n];
      StateIsFirst(parse, states, front, sub);
      ClaimsIsSays(parse, list[n], sub);
      assert forall i | 0 <= i < n :: list[i] == front[i];
      forall i: nat | FirstToSay(parse, list, sub, i) && i < n ensures FirstToSay(parse, front, sub, i) {}
    }
  }
}
