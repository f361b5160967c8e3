/** The module manager of bot/app/modules.py: composing the selected modules,
    starting them in dependency order and closing them newest first. */
module ModuleManagement {
  import opened Wrappers
  import opened Sequences
  import opened ModuleGraph
  import opened ModuleSelection
  import opened ModuleLoading

  /** Why a module is listed as disabled. */
  datatype Reason =
    | BrokenRoot(error: ModuleError)
    | LacksCapability
    | DependencyDisabled
    | NotComposed(error: ModuleError)
    | StartFailed

  /** How the bounded `start()` call of one module ends. */
  datatype StartOutcome = Ready | TimedOut | Cancelled | Errored(recoverable: bool)

  /** The foreign behaviour during startup. */
  datatype StartPlan = StartPlan(
    migrates: Name -> bool,
    hasPorts: Name -> bool,
    outcome: Name -> StartOutcome,
    closesCleanly: Name -> bool)

  datatype StartError = MigrationFailed(name: Name) | Unavailable(name: Name) | NoPort(name: Name)
    | NotStarted(name: Name) | CleanupFailed(name: Name)

  datatype LifecycleEvent = Start(name: Name) | Close(name: Name)

  /** The names in a list of disabled modules. */
  ghost function Listed(disabled: seq<(Name, Reason)>): set<Name> {
    if disabled == [] then {} else Listed(disabled[..|disabled| - 1]) + {disabled[|disabled| - 1].0}
  }

  ghost predicate ListedOnce(disabled: seq<(Name, Reason)>) {
    disabled == []
    || (ListedOnce(disabled[..|disabled| - 1]) && disabled[|disabled| - 1].0 !in Listed(disabled[..|disabled| - 1]))
  }

  lemma ListedSnoc(disabled: seq<(Name, Reason)>, n: Name, reason: Reason)
    ensures Listed(disabled + [(n, reason)]) == Listed(disabled) + {n}
    ensures ListedOnce(disabled + [(n, reason)]) <==> ListedOnce(disabled) && n !in Listed(disabled)
  {
    assert (disabled + [(n, reason)])[..|disabled|] == disabled;
  }

  function Without(names: seq<Name>, name: Name): (r: seq<Name>)
    ensures forall n :: n in r <==> n in names && n != name
    ensures Elems(r) == Elems(names) - {name}
  {
    if names == [] then []
    else if names[0] == name then Without(names[1..], name)
    else [names[0]] + Without(names[1..], name)
  }

  /** The tools that a module has registered. */
  function OwnedBy(owners: map<string, Name>, name: Name): set<string> {
    set t | t in owners && owners[t] == name
  }

  /** What a manager has of its modules: those loaded, their host rules and guild settings, and the tool
      registry with the owners of its tools. */
  datatype Holdings = Holdings(
    loaded: set<Name>, rules: set<Name>, settings: set<Name>, tools: set<string>, owners: map<string, Name>)

  /** What is left once these modules are out. */
  ghost function Reduced(h: Holdings, out: set<Name>): Holdings {
    var lost := set t | t in h.owners && h.owners[t] in out;
    Holdings(h.loaded - out, h.rules - out, h.settings - out, h.tools - lost, h.owners - lost)
  }

  lemma ReducedOne(h: Holdings, n: Name)
    ensures Reduced(h, {n}) == Holdings(h.loaded - {n}, h.rules - {n}, h.settings - {n}, h.tools - OwnedBy(h.owners, n),
                                        h.owners - OwnedBy(h.owners, n))
    ensures Reduced(h, {}) == h
  {
    assert (set t | t in h.owners && h.owners[t] in {n}) == OwnedBy(h.owners, n);
    assert (set t | t in h.owners && h.owners[t] in {}) == {};
    assert h.loaded - {} == h.loaded && h.rules - {} == h.rules && h.settings - {} == h.settings && h.tools - {} == h.tools && h.owners - {} == h.owners;
  }

  lemma ReducedTwice(h: Holdings, out: set<Name>, n: Name)
    ensures Reduced(Reduced(h, out), {n}) == Reduced(h, out + {n})
  {
    var first, second := Reduced(h, out), Reduced(h, out + {n});
    ReducedOne(first, n);
    assert first.loaded - {n} == second.loaded && first.rules - {n} == second.rules && first.settings - {n} == second.settings;
    assert first.tools - OwnedBy(first.owners, n) == second.tools;
    assert first.owners - OwnedBy(first.owners, n) == second.owners;
  }

  /** A registry of the tools registered before and of those with owners stays one. */
  lemma RegistryReduced(base: set<string>, h: Holdings, out: set<Name>)
    requires h.tools == base + h.owners.Keys && base !! h.owners.Keys
    ensures var now := Reduced(h, out);
      && now.tools == base + now.owners.Keys
      && now.owners == map t | t in h.owners && h.owners[t] !in out :: h.owners[t]
  {
  }

  // ----- the lifecycle log

  /** The modules running after the events of a log. */
  ghost function Live(log: seq<LifecycleEvent>): set<Name> {
    if log == [] then {} else
      var last := log[|log| - 1];
      if last.Start? then Live(log[..|log| - 1]) + {last.name} else Live(log[..|log| - 1]) - {last.name}
  }

  /** One more event is safe: a module starts on running dependencies, and is
      closed while nothing running depends on it. */
  ghost predicate SafeNext(g: Installed, live: set<Name>, e: LifecycleEvent) {
    match e
    case Start(n) => forall d :: Edge(g, n, d) ==> d in live
    case Close(n) => forall m :: m in live && m != n ==> !Edge(g, m, n)
  }

  ghost predicate SafeLog(g: Installed, log: seq<LifecycleEvent>) {
    log == [] || (SafeLog(g, log[..|log| - 1]) && SafeNext(g, Live(log[..|log| - 1]), log[|log| - 1]))
  }

  lemma LogSnoc(g: Installed, log: seq<LifecycleEvent>, e: LifecycleEvent)
    ensures Live(log + [e]) == if e.Start? then Live(log) + {e.name} else Live(log) - {e.name}
    ensures SafeLog(g, log + [e]) <==> SafeLog(g, log) && SafeNext(g, Live(log), e)
  {
    assert (log + [e])[..|log|] == log;
  }

  /** Safety of a log is safety of every moment in it. */
  lemma {:induction false} SafeLogAt(g: Installed, log: seq<LifecycleEvent>, i: nat)
    requires SafeLog(g, log) && i < |log|
    ensures SafeNext(g, Live(log[..i]), log[i])
    decreases |log|
  {
    if i < |log| - 1 {
      SafeLogAt(g, log[..|log| - 1], i);
      assert log[..|log| - 1][..i] == log[..i];
    }
  }

  /** Closing newest first. */
  ghost function ClosingOrder(started: seq<Name>): seq<LifecycleEvent> {
    if started == [] then [] else
      [Close(started[|started| - 1])] + ClosingOrder(started[..|started| - 1])
  }

  /** `done` is what is composed when each module of `order` in turn is composed
      if its own composition works and all it depends on is composed. */
  ghost predicate CreationResult(g: Installed, create: Name -> Composition, order: seq<Name>, done: set<Name>) {
    && done <= Elems(order)
    && forall i {:trigger Before(order, i)} :: 0 <= i < |order| ==>
         && order[i] in g
         && (order[i] in done <==>
             create(order[i]).ok && Elems(g[order[i]].dependencies) <= Before(order, i) * done)
  }

  /** `up` is what runs when each module of `order` in turn is started if all it
      depends on runs. */
  ghost predicate StartResult(g: Installed, outcome: Name -> StartOutcome, order: seq<Name>, up: set<Name>) {
    && up <= Elems(order)
    && forall i {:trigger Before(order, i)} :: 0 <= i < |order| ==>
         && order[i] in g
         && (order[i] in up <==>
             outcome(order[i]).Ready? && Elems(g[order[i]].dependencies) <= Before(order, i) * up)
  }

  ghost function NotReady(outcome: Name -> StartOutcome, order: seq<Name>): set<Name> {
    set n | n in order && !outcome(n).Ready?
  }

  /** The modules that reach none whose start does not succeed. */
  ghost function WillRun(g: Installed, outcome: Name -> StartOutcome, order: seq<Name>): set<Name> {
    set n | n in order && !ReachesAny(g, Elems(order), NotReady(outcome, order), n)
  }

  /** They are what starting in order comes to. */
  lemma StartReach(g: Installed, outcome: Name -> StartOutcome, order: seq<Name>)
    requires NoDup(order) && DependencyOrdered(g, order) && Elems(order) <= g.Keys
    ensures StartResult(g, outcome, order, WillRun(g, outcome, order))
  {
    var bad, up := NotReady(outcome, order), WillRun(g, outcome, order);
    forall i | 0 <= i < |order|
      ensures order[i] in g
      ensures order[i] in up <==>
              outcome(order[i]).Ready? && Elems(g[order[i]].dependencies) <= Before(order, i) * up
    {
      var n := order[i];
      assert n in Elems(order);
      ReachesAnyUnfold(g, Elems(order), bad, n);
      forall d | d in g[n].dependencies ensures d in Before(order, i) && d in Elems(order) {
        assert Edge(g, order[i], d);
        BeforeIsPrefix(order, i);
      }
      forall d | d in g[n].dependencies
        ensures d in Elems(g[n].dependencies) && Edge(g, n, d) && (d in up <==> !ReachesAny(g, Elems(order), bad, d))
      {
      }
    }
  }

  /** `tools` is the tool registry, `owners` says which module registered a tool, and
      `settings` are the modules with guild settings once that service is bound. */
  class ModuleManager {
    const deployment: Deployment
    var discovered: Installed
    var specs: seq<Name>
    var modules: seq<Name>
    var hostRules: set<Name>
    var settings: set<Name>
    var tools: set<string>
    var owners: map<string, Name>
    var loaded: seq<Name>
    var disabled: seq<(Name, Reason)>
    var started: seq<Name>
    ghost var log: seq<LifecycleEvent>

    constructor (w: Deployment, registered: set<string>)
      ensures deployment == w && tools == registered && owners == map[]
      ensures specs == [] && modules == [] && loaded == [] && disabled == [] && hostRules == {} && settings == {}
      ensures started == [] && log == []
    {
      deployment := w;
      discovered, specs, modules, hostRules, settings := map[], [], [], {}, {};
      tools, owners, loaded, disabled, started, log := registered, map[], [], [], [], [];
    }

    /** During loading: nothing is loaded yet and exactly `gone` is disabled,
        each module once. */
    ghost predicate Accounts(gone: set<Name>)
      reads `loaded, `disabled
    {
      loaded == [] && Listed(disabled) == gone && ListedOnce(disabled)
    }

    /** `_disable`: the module loses its host rule, its guild settings and its tools. */
    method Disable(name: Name, reason: Reason)
      modifies `disabled, `loaded, `hostRules, `settings, `tools, `owners
      ensures disabled == old(disabled) + [(name, reason)] && Listed(disabled) == Listed(old(disabled)) + {name}
      ensures hostRules == old(hostRules) - {name} && settings == old(settings) - {name}
      ensures loaded == Without(old(loaded), name)
      ensures owners == old(owners) - OwnedBy(old(owners), name)
      ensures tools == old(tools) - OwnedBy(old(owners), name)
      ensures name !in Listed(old(disabled)) && ListedOnce(old(disabled)) ==> ListedOnce(disabled)
    {
      ListedSnoc(disabled, name, reason);
      disabled := disabled + [(name, reason)];
      tools := tools - OwnedBy(owners, name);
      owners := owners - OwnedBy(owners, name);
      hostRules := hostRules - {name};
      settings := settings - {name};
      loaded := Without(loaded, name);
    }

    /** Nothing is disabled that has tools. */
    lemma OwnsNothing(name: Name)
      requires forall t :: t in owners ==> owners[t] != name
      ensures OwnedBy(owners, name) == {} && owners - {} == owners && tools - {} == tools
    {
    }

    // ----- loading

    method DiscoverAll() returns (failures: set<Name>)
      modifies `discovered
      ensures discovered == deployment.Discovered() && failures == deployment.Failures()
    {
      var found: Installed := map[];
      failures := {};
      var names := deployment.names;
      for i := 0 to |names|
        invariant found == map n | n in names[..i] && deployment.discover(n).Found? :: deployment.discover(n).spec
        invariant failures == set n | n in names[..i] && deployment.discover(n).Broken?
      {
        assert names[..i + 1] == names[..i] + [names[i]];
        match deployment.discover(names[i])
        case Found(spec) => found := found[names[i] := spec];
        case Absent =>
        case Broken => failures := failures + {names[i]};
      }
      assert names[..|names|] == names;
      discovered := found;
    }

    /** One turn of the loop over roots: the closure of a valid root joins the
        selection, an invalid optional root is disabled. */
    method SelectRoot(failures: set<Name>, name: Name, selected: seq<Name>, ghost sound: set<Name>, ghost gone: set<Name>)
      returns (r: Result<seq<Name>, ModuleError>)
      requires discovered == deployment.Discovered() && failures == deployment.Failures()
      requires name in deployment.Names() && sound == SoundRoots(deployment)
      requires NoDup(selected) && Elems(selected) <= sound
      requires Accounts(gone) && name !in gone && hostRules == {} && owners == map[]
      modifies `disabled, `loaded, `hostRules, `settings, `tools, `owners
      ensures hostRules == {} && owners == map[] && tools == old(tools)
      ensures r.Failure? <==> name !in sound && name !in deployment.optional
      ensures r.Success? ==>
        && NoDup(r.value) && Elems(selected) <= Elems(r.value) <= sound
        && (name in sound ==> name in Elems(r.value))
        && Accounts(if name in sound then gone else gone + {name})
    {
      var root := ResolveRoot(deployment, discovered, failures, name);
      if root.Success? {
        SoundRootsClosed(deployment, name);
        var merged := Merge(selected, root.value);
        assert name in Elems(merged);
        return Success(merged);
      } else if name !in deployment.optional {
        return Failure(root.error);
      }
      Disable(name, BrokenRoot(root.error));
      return Success(selected);
    }

    /** The loop over roots. The selection is the set of separately valid roots;
        the other roots are disabled, or abort the load if required. */
    method SelectRoots(failures: set<Name>, ghost sound: set<Name>) returns (r: Result<seq<Name>, ModuleError>)
      requires discovered == deployment.Discovered() && failures == deployment.Failures()
      requires sound == SoundRoots(deployment)
      requires Accounts({}) && hostRules == {} && owners == map[] && NoDup(deployment.names)
      modifies `disabled, `loaded, `hostRules, `settings, `tools, `owners
      ensures hostRules == {} && owners == map[] && tools == old(tools)
      ensures r.Success? <==> deployment.Names() - deployment.optional <= sound
      ensures r.Success? ==>
        NoDup(r.value) && Elems(r.value) == sound && Accounts(deployment.Names() - sound)
    {
      var names := deployment.names;
      var selected: seq<Name> := [];
      ghost var seen: set<Name> := {};
      for i := 0 to |names|
        invariant hostRules == {} && owners == map[] && tools == old(tools) && seen == Before(names, i)
        invariant NoDup(selected) && Elems(selected) <= sound
        invariant seen * sound <= Elems(selected)
        invariant seen - deployment.optional <= sound
        invariant Accounts(seen - sound)
      {
        BeforeStep(names, i);
        RunningSets(seen, sound, names[i]);
        r := SelectRoot(failures, names[i], selected, sound, seen - sound);
        if r.Failure? {
          return;
        }
        selected := r.value;
        seen := seen + {names[i]};
      }
      BeforeAll(names);
      return Success(selected);
    }

    /** `_activation_disabled`: one pass over a dependency order finds every
        module that reaches a missing capability. */
    method ActivationPass(order: seq<Name>) returns (inactive: map<Name, Reason>)
      requires Elems(order) == SoundRoots(deployment) && DependencyOrdered(deployment.Discovered(), order)
      requires discovered == deployment.Discovered()
      ensures inactive.Keys == set n | n in SoundRoots(deployment) && !Active(deployment, n)
    {
      ghost var w, g, names := deployment, deployment.Discovered(), deployment.Names();
      inactive := map[];
      for i := 0 to |order|
        invariant inactive.Keys == set n | n in order[..i] && !Active(w, n)
      {
        var n := order[i];
        assert n in Elems(order);
        assert order[..i + 1] == order[..i] + [n];
        SoundRootsClosed(w, n);
        assert n in g;
        ReachesAnyUnfold(g, names, Unactivatable(w), n);
        forall d | Edge(g, n, d) ensures d in order[..i] && d in SoundRoots(w) && d in names {
        }
        if exists c :: c in discovered[n].activationCapabilities && c !in deployment.host.available {
          assert n in Unactivatable(w);
          inactive := inactive[n := LacksCapability];
        } else if exists d :: d in discovered[n].dependencies && d in inactive {
          var d :| d in discovered[n].dependencies && d in inactive;
          assert Edge(g, n, d) && !Active(w, d);
          inactive := inactive[n := DependencyDisabled];
        } else {
          assert n !in Unactivatable(w);
          forall d | Edge(g, n, d) ensures !ReachesAny(g, names, Unactivatable(w), d) {
            assert d !in inactive;
          }
        }
      }
      assert order[..|order|] == order;
    }

    /** The tools that composed modules ask for. */
    ghost function ToolsOf(composed: seq<Name>): set<string> {
      set n, t | n in composed && t in deployment.create(n).tools :: t
    }

    /** The registry holds what was registered before and the tools of composed modules. */
    ghost predicate Registry(registered: set<string>)
      reads `modules, `tools, `owners
    {
      IsRegistry(registered, modules, tools, owners)
    }

    ghost predicate IsRegistry(registered: set<string>, composed: seq<Name>, has: set<string>, owned: map<string, Name>) {
      && has == registered + owned.Keys && registered !! owned.Keys
      && (forall t :: t in owned ==> owned[t] in composed && t in deployment.create(owned[t]).tools)
      && ToolsOf(composed) <= has
    }

    ghost predicate Composed()
      reads `discovered, `modules, `hostRules
    {
      NoDup(modules) && DependencyOrdered(discovered, modules) && hostRules == Elems(modules)
    }

    /** The body of `_create_all` for one module. A failed composition leaves no
        tool and no host rule behind. */
    method Compose(n: Name, ghost gone: set<Name>, ghost registered: set<string>) returns (raised: Option<ModuleError>)
      requires n in discovered && n !in modules && n !in gone
      requires Composed() && Accounts(gone) && Registry(registered)
      modifies `disabled, `loaded, `hostRules, `settings, `modules, `tools, `owners
      ensures Composed() && Registry(registered)
      ensures var ok := deployment.create(n).ok && Elems(discovered[n].dependencies) <= Elems(old(modules));
        && (raised.Some? <==> !ok && n !in deployment.optional)
        && modules == (if ok then old(modules) + [n] else old(modules))
        && tools == (if ok then old(tools) + deployment.create(n).tools else old(tools))
        && (!ok ==> owners == old(owners))
        && (raised.None? ==> Accounts(if ok then gone else gone + {n}))
    {
      if exists d :: d in discovered[n].dependencies && d !in modules {
        var d :| d in discovered[n].dependencies && d !in modules;
        assert d in Elems(discovered[n].dependencies);
        raised := Refuse(n, DependencyUnavailable(n, d), gone, registered);
        return;
      }
      ghost var composed, had, owned := modules, tools, owners;
      var ok := TryCreate(n);
      if !ok {
        raised := Refuse(n, CreateFailed(n), gone, registered);
        return;
      }
      OrderedSnoc(discovered, modules, n);
      NoDupSnoc(modules, n);
      RegistryGrows(composed, n, registered, had, owned);
      modules := modules + [n];
      return None;
    }

    /** `spec.create` with what it registers, all of it undone when it raises. */
    method TryCreate(n: Name) returns (ok: bool)
      requires n !in hostRules && forall t :: t in owners ==> owners[t] != n
      modifies `hostRules, `tools, `owners
      ensures ok == deployment.create(n).ok
      ensures hostRules == if ok then old(hostRules) + {n} else old(hostRules)
      ensures tools == if ok then old(tools) + deployment.create(n).tools else old(tools)
      ensures owners == if ok then Claimed(old(owners), deployment.create(n).tools - old(tools), n) else old(owners)
    {
      var before := tools;
      ghost var owned := owners;
      hostRules := hostRules + {n};
      owners := Claimed(owners, deployment.create(n).tools - tools, n);
      tools := tools + deployment.create(n).tools;
      ok := deployment.create(n).ok;
      if !ok {
        hostRules := hostRules - {n};
        tools := tools - (tools - before);
        assert tools == before;
        Unclaimed(owned, deployment.create(n).tools - before, n);
        owners := Forgotten(owners, n);
      }
    }

    /** `forget_module`. */
    function Forgotten(owned: map<string, Name>, n: Name): map<string, Name> {
      map t | t in owned && owned[t] != n :: owned[t]
    }

    lemma Unclaimed(owned: map<string, Name>, taken: set<string>, n: Name)
      requires forall t :: t in owned ==> owned[t] != n
      ensures Forgotten(Claimed(owned, taken, n), n) == owned
    {
    }

    /** A name that is taken is not registered again. */
    function Claimed(owned: map<string, Name>, taken: set<string>, n: Name): map<string, Name> {
      map t | t in owned.Keys + taken :: if t in owned then owned[t] else n
    }

    lemma RegistryGrows(composed: seq<Name>, n: Name, registered: set<string>, had: set<string>, owned: map<string, Name>)
      requires IsRegistry(registered, composed, had, owned)
      ensures IsRegistry(registered, composed + [n], had + deployment.create(n).tools,
                         Claimed(owned, deployment.create(n).tools - had, n))
    {
      ToolsSnoc(composed, n);
    }

    /** A required module that cannot be composed aborts; an optional one is disabled. */
    method Refuse(n: Name, error: ModuleError, ghost gone: set<Name>, ghost registered: set<string>)
      returns (raised: Option<ModuleError>)
      requires n !in modules && n !in gone && Composed() && Accounts(gone) && Registry(registered)
      modifies `disabled, `loaded, `hostRules, `settings, `tools, `owners
      ensures Composed() && tools == old(tools) && owners == old(owners) && Registry(registered)
      ensures raised.Some? <==> n !in deployment.optional
      ensures raised.None? ==> Accounts(gone + {n})
    {
      if n !in deployment.optional {
        return Some(error);
      }
      OwnsNothing(n);
      Disable(n, NotComposed(error));
      return None;
    }

    /** After composing the modules `seen`, of which `loadable` can be composed:
        the rest is accounted as disabled, on top of what was `gone` before. */
    ghost predicate Progress(seen: set<Name>, loadable: set<Name>, gone: set<Name>, registered: set<string>)
      reads `discovered, `modules, `hostRules, `tools, `owners, `loaded, `disabled
    {
      && Composed() && Elems(modules) == seen * loadable
      && Registry(registered)
      && Accounts(gone + (seen - loadable))
    }

    method ComposeNext(n: Name, ghost seen: set<Name>, ghost loadable: set<Name>, ghost gone: set<Name>,
                       ghost registered: set<string>)
      returns (raised: Option<ModuleError>)
      requires n in discovered && n !in seen && n !in gone
      requires n in loadable <==> deployment.create(n).ok && Elems(discovered[n].dependencies) <= seen * loadable
      requires Progress(seen, loadable, gone, registered)
      modifies `disabled, `loaded, `hostRules, `settings, `modules, `tools, `owners
      ensures raised.Some? <==> n !in loadable && n !in deployment.optional
      ensures raised.None? ==> Progress(seen + {n}, loadable, gone, registered)
    {
      assert n !in Elems(modules);
      ghost var composed := modules;
      raised := Compose(n, gone + (seen - loadable), registered);
      RunningSets(seen, loadable, n);
      ElemsSnoc(composed, n);
      UnionAssociative(gone, seen - loadable, {n});
    }

    /** `_create_all`: composes a module when all it depends on is composed. */
    method CreateAll(active: seq<Name>, ghost loadable: set<Name>, ghost gone: set<Name>)
      returns (raised: Option<ModuleError>)
      requires modules == [] && hostRules == {} && owners == map[]
      requires NoDup(active) && gone !! Elems(active)
      requires CreationResult(discovered, deployment.create, active, loadable)
      requires Accounts(gone)
      modifies `disabled, `loaded, `hostRules, `settings, `modules, `tools, `owners
      ensures raised.None? <==> Elems(active) - deployment.optional <= loadable
      ensures raised.None? ==> Progress(Elems(active), loadable, gone, old(tools))
    {
      assert ToolsOf([]) == {} && gone + ({} - loadable) == gone;
      ghost var seen: set<Name> := {};
      for i := 0 to |active|
        invariant seen == Before(active, i)
        invariant Progress(seen, loadable, gone, old(tools))
        invariant seen - deployment.optional <= loadable
      {
        BeforeStep(active, i);
        raised := ComposeNext(active[i], seen, loadable, gone, old(tools));
        if raised.Some? {
          return;
        }
        seen := seen + {active[i]};
      }
      BeforeAll(active);
      return None;
    }

    lemma ToolsSnoc(composed: seq<Name>, n: Name)
      ensures ToolsOf(composed + [n]) == ToolsOf(composed) + deployment.create(n).tools
    {
    }

    /** The loadable modules are what composing the active ones in order gives. */
    lemma LoadableIsCreated(active: seq<Name>, loadable: set<Name>)
      requires NoDup(active) && DependencyOrdered(deployment.Discovered(), active)
      requires Elems(active) == set n | n in deployment.Names() && Active(deployment, n)
      requires loadable == set n | n in deployment.Names() && Loadable(deployment, n)
      ensures CreationResult(deployment.Discovered(), deployment.create, active, loadable)
    {
      var w, g := deployment, deployment.Discovered();
      forall i | 0 <= i < |active|
        ensures active[i] in g
        ensures active[i] in loadable <==>
          w.create(active[i]).ok && Elems(g[active[i]].dependencies) <= Before(active, i) * loadable
      {
        var n := active[i];
        assert n in Elems(active);
        LoadableUnfold(w, n);
        forall d | d in g[n].dependencies ensures d in Before(active, i) {
          assert Edge(g, active[i], d);
          BeforeIsPrefix(active, i);
        }
        forall d | d in g[n].dependencies ensures d in Elems(g[n].dependencies) && (d in loadable <==> Loadable(w, d)) {
        }
      }
    }

    // ----- the whole load

    /** The final `validate_module_selection` over all selected modules: prefixes
        are the only thing separately valid roots can still disagree about. */
    method FinalValidation(selected: seq<Name>) returns (r: Result<seq<Name>, ModuleError>)
      requires discovered == deployment.Discovered()
      requires NoDup(selected) && Elems(selected) == SoundRoots(deployment)
      ensures r.Success? <==> PrefixesDistinct(SoundRoots(deployment))
      ensures r.Success? ==>
        NoDup(r.value) && Elems(r.value) == Elems(selected) && DependencyOrdered(discovered, r.value)
      ensures r.Failure? ==>
        && r.error.SharedPrefix? && r.error.first != r.error.second
        && RootOk(deployment, r.error.first) && RootOk(deployment, r.error.second)
        && TablePrefix(r.error.first) == TablePrefix(r.error.second)
    {
      ghost var sound := SoundRoots(deployment);
      SoundRootsCompose(deployment);
      RestrictedValidity(discovered, deployment.host, sound);
      var restricted: Installed := map n | n in Elems(selected) && n in discovered :: discovered[n];
      assert restricted == map n | n in sound :: discovered[n];
      r := ValidateSelection(selected, restricted, deployment.host);
      if r.Failure? {
        OnlyPrefixErrors(r.error, restricted, deployment.host, selected);
        assert r.error.first in Elems(selected) && r.error.second in Elems(selected);
      }
      if r.Success? {
        forall i, d | 0 <= i < |r.value| && Edge(discovered, r.value[i], d) ensures d in r.value[..i] {
          assert r.value[i] in Elems(r.value);
          assert Edge(restricted, r.value[i], d);
        }
      }
    }

    /** Adds the modules without their activation capability to the disabled ones. */
    method ListInactive(order: seq<Name>, inactive: map<Name, Reason>, ghost gone: set<Name>)
      requires NoDup(order) && gone !! inactive.Keys && Accounts(gone)
      modifies `disabled
      ensures Accounts(gone + Elems(order) * inactive.Keys)
    {
      ghost var seen: set<Name> := {};
      assert gone + {} * inactive.Keys == gone;
      for i := 0 to |order|
        invariant seen == Before(order, i) && Accounts(gone + seen * inactive.Keys)
      {
        BeforeStep(order, i);
        RunningSets(seen, inactive.Keys, order[i]);
        if order[i] in inactive {
          UnionAssociative(gone, seen * inactive.Keys, {order[i]});
          ListedSnoc(disabled, order[i], inactive[order[i]]);
          disabled := disabled + [(order[i], inactive[order[i]])];
        }
        seen := seen + {order[i]};
      }
      BeforeAll(order);
    }

    lemma LoadableDiscovered(names: set<Name>)
      requires forall n :: n in names ==> n in deployment.Names() && Loadable(deployment, n)
      ensures names <= deployment.Discovered().Keys
    {
      forall n | n in names ensures n in deployment.Discovered() {
        ActiveFacts(set x | x in deployment.Names() && Active(deployment, x), set x | x in deployment.Names() && Loadable(deployment, x));
        SoundRootsClosed(deployment, n);
      }
    }

    lemma ActiveFacts(act: set<Name>, loadable: set<Name>)
      requires act == set n | n in deployment.Names() && Active(deployment, n)
      requires loadable == set n | n in deployment.Names() && Loadable(deployment, n)
      ensures loadable <= act <= SoundRoots(deployment) <= deployment.Names()
      ensures SoundRoots(deployment) - act == set n | n in SoundRoots(deployment) && !Active(deployment, n)
      ensures forall n, d :: n in act && Edge(deployment.Discovered(), n, d) ==> d in act
      ensures forall n, d :: n in loadable && Edge(deployment.Discovered(), n, d) ==> d in loadable
      ensures (exists n :: n in deployment.Names() - deployment.optional && Active(deployment, n) && !Loadable(deployment, n))
              <==> !(act - deployment.optional <= loadable)
    {
      forall n, d | n in act && Edge(deployment.Discovered(), n, d)
        ensures d in act && (n in loadable ==> d in loadable)
      {
        LoadableUnfold(deployment, n);
      }
      forall n | n in deployment.Names() - deployment.optional && Active(deployment, n) && !Loadable(deployment, n)
        ensures n in act - deployment.optional && n !in loadable
      {
      }
      if !(act - deployment.optional <= loadable) {
        var n :| n in act - deployment.optional && n !in loadable;
        assert n in deployment.Names() - deployment.optional && Active(deployment, n) && !Loadable(deployment, n);
      }
    }

    /** The active part of a validated order. */
    method SplitActive(order: seq<Name>, ghost act: set<Name>)
      returns (active: seq<Name>, inactive: map<Name, Reason>)
      requires discovered == deployment.Discovered()
      requires NoDup(order) && Elems(order) == SoundRoots(deployment) && DependencyOrdered(discovered, order)
      requires act == set n | n in deployment.Names() && Active(deployment, n)
      ensures inactive.Keys == Elems(order) - act
      ensures NoDup(active) && Elems(active) == act && DependencyOrdered(discovered, active)
    {
      ActiveFacts(act, set n | n in deployment.Names() && Loadable(deployment, n));
      inactive := ActivationPass(order);
      active := Keep(order, Elems(order) - inactive.Keys);
      KeepElems(order, Elems(order) - inactive.Keys);
      KeepOrdered(discovered, order, Elems(order) - inactive.Keys);
    }

    /** Composes the active modules and accounts for all the others. */
    method ComposeActive(order: seq<Name>, active: seq<Name>, inactive: map<Name, Reason>,
                         ghost names: set<Name>, ghost loadable: set<Name>)
      returns (raised: Option<ModuleError>)
      requires modules == [] && hostRules == {} && owners == map[]
      requires NoDup(order) && inactive.Keys == Elems(order) - Elems(active)
      requires NoDup(active) && DependencyOrdered(discovered, active)
      requires loadable <= Elems(active) <= Elems(order) <= names
      requires CreationResult(discovered, deployment.create, active, loadable)
      requires forall n, d :: n in loadable && Edge(discovered, n, d) ==> d in loadable
      requires Accounts(names - Elems(order))
      modifies `disabled, `loaded, `hostRules, `settings, `modules, `tools, `owners, `specs
      ensures raised.None? <==> Elems(active) - deployment.optional <= loadable
      ensures raised.None? ==>
        && NoDup(specs) && DependencyOrdered(discovered, specs) && Elems(specs) == loadable
        && Composed() && Elems(modules) == loadable
        && Registry(old(tools))
        && Accounts(names - loadable)
    {
      ghost var sound, act := Elems(order), Elems(active);
      raised := CreateAll(active, loadable, names - sound);
      if raised.Some? {
        return;
      }
      ghost var gone := (names - sound) + (act - loadable);
      assert Elems(modules) == loadable && gone !! inactive.Keys;
      ListInactive(order, inactive, gone);
      assert gone + sound * inactive.Keys == names - loadable;
      KeepElems(active, Elems(modules));
      KeepOrdered(discovered, active, Elems(modules));
      specs := Keep(active, Elems(modules));
    }

    lemma RegistryTools(registered: set<string>)
      requires Registry(registered) && Elems(specs) == Elems(modules)
      ensures tools == registered + ToolsOf(specs)
    {
      assert ToolsOf(specs) == ToolsOf(modules) by {
        assert forall n :: n in specs <==> n in Elems(specs);
        assert forall n :: n in modules <==> n in Elems(modules);
      }
      assert owners.Keys <= ToolsOf(modules);
    }

    /** `ModuleManager.load`: aborts exactly as `LoadAborts` says; otherwise the
        loadable modules are loaded in dependency order, and every other requested
        module is listed as disabled, once. */
    method Load() returns (raised: Option<ModuleError>)
      requires modules == [] && hostRules == {} && owners == map[] && disabled == [] && loaded == [] && specs == []
      modifies `discovered, `disabled, `loaded, `hostRules, `settings, `modules, `tools, `owners, `specs
      ensures raised.Some? <==> LoadAborts(deployment)
      ensures raised.None? ==>
        && discovered == deployment.Discovered()
        && NoDup(specs) && DependencyOrdered(discovered, specs) && loaded == specs
        && Elems(specs) == (set n | n in deployment.Names() && Loadable(deployment, n))
        && Elems(modules) == Elems(specs) && hostRules == Elems(specs)
        && Registry(old(tools)) && tools == old(tools) + ToolsOf(specs)
        && Listed(disabled) == deployment.Names() - Elems(specs) && ListedOnce(disabled)
    {
      if !(deployment.optional <= Elems(deployment.names)) {
        return Some(OptionalNotRequested);
      }
      var duplicate := HasDuplicate(deployment.names);
      if duplicate {
        return Some(DuplicateName);
      }
      var failures := DiscoverAll();
      ghost var sound := SoundRoots(deployment);
      var selection := SelectRoots(failures, sound);
      if selection.Failure? {
        return Some(selection.error);
      }
      var order := FinalValidation(selection.value);
      if order.Failure? {
        return Some(order.error);
      }
      ghost var loadable := set n | n in deployment.Names() && Loadable(deployment, n);
      ghost var act := set n | n in deployment.Names() && Active(deployment, n);
      var active, inactive := SplitActive(order.value, act);
      ActiveFacts(act, loadable);
      LoadableIsCreated(active, loadable);
      raised := ComposeActive(order.value, active, inactive, deployment.Names(), loadable);
      if raised.None? {
        RegistryTools(old(tools));
        loaded := specs;
      }
    }

    // ----- starting and closing

    /** Between lifecycle steps: what runs is in `started`, which is in dependency
        order with all dependencies of each member started. */
    ghost predicate Running()
      reads `discovered, `started, `log
    {
      && NoDup(started) && DependencyOrdered(discovered, started)
      && SafeLog(discovered, log) && Live(log) <= Elems(started)
    }

    /** `close`: newest first, so nothing is closed under a running dependent. */
    method CloseAll()
      requires Running()
      modifies `started, `log
      ensures Running() && started == [] && Live(log) == {}
      ensures log == old(log) + ClosingOrder(old(started))
    {
      assert log == log + [];
      while started != []
        invariant Running()
        invariant log + ClosingOrder(started) == old(log) + ClosingOrder(old(started))
        decreases |started|
      {
        var name := started[|started| - 1];
        ghost var was := started;
        started := started[..|started| - 1];
        CloseLast(was, name);
        assert log + ClosingOrder(was) == (log + [Close(name)]) + ClosingOrder(started);
        LogSnoc(discovered, log, Close(name));
        log := log + [Close(name)];
        KeepsOrder(was);
      }
      assert log == log + ClosingOrder([]);
    }

    lemma CloseLast(was: seq<Name>, name: Name)
      requires was != [] && name == was[|was| - 1] && NoDup(was) && DependencyOrdered(discovered, was)
      requires Live(log) <= Elems(was)
      ensures SafeNext(discovered, Live(log), Close(name))
      ensures Live(log) - {name} <= Elems(was[..|was| - 1])
    {
      var front := was[..|was| - 1];
      assert was == front + [name];
      ElemsSnoc(front, name);
      forall m | m in Live(log) && m != name ensures !Edge(discovered, m, name) {
        assert m in Elems(front);
        var i :| 0 <= i < |front| && was[i] == m;
      }
    }

    lemma KeepsOrder(was: seq<Name>)
      requires was != [] && NoDup(was) && DependencyOrdered(discovered, was)
      ensures NoDup(was[..|was| - 1]) && DependencyOrdered(discovered, was[..|was| - 1])
    {
      var front := was[..|was| - 1];
      forall i, d | 0 <= i < |front| && Edge(discovered, front[i], d) ensures d in front[..i] {
        assert Edge(discovered, was[i], d) && was[..i] == front[..i];
      }
    }

    predicate IsDisabled(n: Name)
      reads `disabled
    {
      exists e :: e in disabled && e.0 == n
    }

    lemma {:induction false} DisabledIsListed(entries: seq<(Name, Reason)>, n: Name)
      ensures n in Listed(entries) <==> exists e :: e in entries && e.0 == n
    {
      if entries != [] {
        var front, last := entries[..|entries| - 1], entries[|entries| - 1];
        DisabledIsListed(front, n);
        assert entries == front + [last];
        assert last in entries;
      }
    }

    /** Whether startup can go on after the module at `n`: `ready` says that all it
        depends on runs. */
    ghost predicate Survives(plan: StartPlan, n: Name, ready: bool) {
      if !ready then n in deployment.optional
      else plan.hasPorts(n)
           && (plan.outcome(n).Ready?
               || (plan.outcome(n) == Errored(true) && n in deployment.optional && plan.closesCleanly(n)))
    }

    /** While starting: of the modules `seen`, exactly those in `up` run, and the
        others are disabled on top of `gone`. */
    ghost predicate Starting(seen: set<Name>, up: set<Name>, gone: set<Name>)
      reads `discovered, `started, `log, `disabled
    {
      && Running() && Elems(started) == seen * up && Live(log) == Elems(started)
      && Listed(disabled) == gone + (seen - up)
    }

    ghost function Held(): Holdings
      reads `loaded, `hostRules, `settings, `tools, `owners
    {
      Holdings(Elems(loaded), hostRules, settings, tools, owners)
    }

    /** The body of the start loop. When it raises, the caller closes everything. */
    method StartNext(plan: StartPlan, n: Name, ghost seen: set<Name>, ghost up: set<Name>, ghost gone: set<Name>)
      returns (raised: Option<StartError>)
      requires n in discovered && n !in seen
      requires Elems(discovered[n].dependencies) <= seen && gone !! seen
      requires n in up <==> plan.outcome(n).Ready? && Elems(discovered[n].dependencies) <= seen * up
      requires Starting(seen, up, gone)
      modifies `started, `log, `disabled, `loaded, `hostRules, `settings, `tools, `owners
      ensures raised.None? ==> Held() == if n in up then old(Held()) else Reduced(old(Held()), {n})
      ensures raised.None? <==> Survives(plan, n, Elems(discovered[n].dependencies) <= seen * up)
      ensures raised.None? ==> Starting(seen + {n}, up, gone)
      ensures Running()
    {
      ghost var ready := Elems(discovered[n].dependencies) <= seen * up;
      forall d ensures IsDisabled(d) <==> d in gone + (seen - up) {
        DisabledIsListed(disabled, d);
      }
      RunningSets(seen, up, n);
      UnionAssociative(gone, seen - up, {n});
      ReducedOne(Held(), n);
      if exists d :: d in discovered[n].dependencies && IsDisabled(d) {
        var d :| d in discovered[n].dependencies && IsDisabled(d);
        assert d in Elems(discovered[n].dependencies) && d in seen - up && !ready;
        if n !in deployment.optional {
          return Some(Unavailable(n));
        }
        Disable(n, DependencyDisabled);
        return None;
      }
      assert ready by {
        forall d | d in Elems(discovered[n].dependencies) ensures d in seen * up {
          assert d in discovered[n].dependencies;
        }
      }
      if !plan.hasPorts(n) {
        return Some(NoPort(n));
      }
      ghost var was := started;
      assert n !in Elems(was);
      StartLast(was, n);
      LogSnoc(discovered, log, Start(n));
      started := started + [n];
      log := log + [Start(n)];
      ElemsSnoc(was, n);
      if !plan.outcome(n).Ready? {
        raised := FailStart(plan, n, was);
        return;
      }
      return None;
    }

    /** A module whose `start()` did not succeed: an optional one that raised is
        closed and disabled, anything else aborts startup. */
    method FailStart(plan: StartPlan, n: Name, ghost was: seq<Name>) returns (raised: Option<StartError>)
      requires !plan.outcome(n).Ready? && n !in was
      requires Running() && started == was + [n] && Live(log) == Elems(was) + {n}
      modifies `started, `log, `disabled, `loaded, `hostRules, `settings, `tools, `owners
      ensures raised.None? ==> Held() == Reduced(old(Held()), {n})
      ensures raised.None? <==>
        plan.outcome(n) == Errored(true) && n in deployment.optional && plan.closesCleanly(n)
      ensures raised.None? ==>
        started == was && Live(log) == Elems(was) && Listed(disabled) == Listed(old(disabled)) + {n}
      ensures Running()
    {
      if n !in deployment.optional || plan.outcome(n) != Errored(true) {
        return Some(NotStarted(n));
      }
      CloseLast(started, n);
      LogSnoc(discovered, log, Close(n));
      ElemsSnoc(was, n);
      log := log + [Close(n)];
      if !plan.closesCleanly(n) {
        return Some(CleanupFailed(n));
      }
      KeepsOrder(started);
      started := started[..|started| - 1];
      assert started == was;
      ReducedOne(Held(), n);
      Disable(n, StartFailed);
      return None;
    }

    lemma StartLast(was: seq<Name>, n: Name)
      requires n in discovered && n !in Elems(was) && NoDup(was) && DependencyOrdered(discovered, was)
      requires Elems(discovered[n].dependencies) <= Elems(was)
      ensures NoDup(was + [n]) && DependencyOrdered(discovered, was + [n])
      ensures Live(log) == Elems(was) ==> SafeNext(discovered, Live(log), Start(n))
    {
      NoDupSnoc(was, n);
      forall d | Edge(discovered, n, d) ensures d in was && d in Elems(was) {
        assert d in Elems(discovered[n].dependencies);
      }
      OrderedSnoc(discovered, was, n);
    }

    /** Startup survives each of the first `k` modules. */
    ghost predicate SurvivesFirst(plan: StartPlan, up: set<Name>, k: nat)
      requires k <= |specs|
      reads `specs, `discovered
    {
      k == 0 || (
        && SurvivesFirst(plan, up, k - 1)
        && specs[k - 1] in discovered
        && Survives(plan, specs[k - 1], Elems(discovered[specs[k - 1]].dependencies) <= Before(specs, k - 1) * up))
    }

    lemma {:induction false} SurvivesAll(plan: StartPlan, up: set<Name>, j: nat, k: nat)
      requires j <= k <= |specs| && SurvivesFirst(plan, up, k)
      ensures SurvivesFirst(plan, up, j)
      decreases k
    {
      if j < k {
        SurvivesAll(plan, up, j, k - 1);
      }
    }

    lemma NotAll(plan: StartPlan, up: set<Name>, k: nat)
      requires k <= |specs| && !SurvivesFirst(plan, up, k)
      ensures !SurvivesFirst(plan, up, |specs|)
    {
      if SurvivesFirst(plan, up, |specs|) {
        SurvivesAll(plan, up, k, |specs|);
      }
    }

    method MigrateAll(plan: StartPlan) returns (raised: Option<StartError>)
      ensures raised.None? <==> forall n :: n in specs ==> plan.migrates(n)
    {
      for i := 0 to |specs|
        invariant forall j :: 0 <= j < i ==> plan.migrates(specs[j])
      {
        if !plan.migrates(specs[i]) {
          assert specs[i] in specs;
          return Some(MigrationFailed(specs[i]));
        }
      }
      return None;
    }

    lemma DependenciesBefore(i: nat)
      requires i < |specs| && specs[i] in discovered && DependencyOrdered(discovered, specs)
      ensures Elems(discovered[specs[i]].dependencies) <= Before(specs, i)
    {
      BeforeIsPrefix(specs, i);
      forall d | d in Elems(discovered[specs[i]].dependencies) ensures d in Elems(specs[..i]) {
        assert Edge(discovered, specs[i], d);
      }
    }

    /** Startup comes through: every migration and every start does, given what runs. */
    ghost predicate StartsUp(plan: StartPlan)
      reads `specs, `discovered
    {
      && (forall n :: n in specs ==> plan.migrates(n))
      && SurvivesFirst(plan, WillRun(discovered, plan.outcome, specs), |specs|)
    }

    /** When every migration, every port and every start is there, startup comes through and
        every module runs. */
    lemma HealthyStarts(plan: StartPlan)
      requires NoDup(specs) && DependencyOrdered(discovered, specs) && Elems(specs) <= discovered.Keys
      requires forall n :: n in specs ==> plan.migrates(n) && plan.hasPorts(n) && plan.outcome(n).Ready?
      ensures StartsUp(plan) && WillRun(discovered, plan.outcome, specs) == Elems(specs)
    {
      assert NotReady(plan.outcome, specs) == {};
      var up := WillRun(discovered, plan.outcome, specs);
      assert up == Elems(specs);
      HealthySurvives(plan, up, |specs|);
    }

    lemma {:induction false} HealthySurvives(plan: StartPlan, up: set<Name>, k: nat)
      requires DependencyOrdered(discovered, specs) && Elems(specs) <= discovered.Keys && up == Elems(specs) && k <= |specs|
      requires forall n :: n in specs ==> plan.hasPorts(n) && plan.outcome(n).Ready?
      ensures SurvivesFirst(plan, up, k)
    {
      if k > 0 {
        HealthySurvives(plan, up, k - 1);
        assert specs[k - 1] in Elems(specs);
        DependenciesBefore(k - 1);
        BeforeWithin(specs, k - 1);
      }
    }

    /** An application that has come up runs every module that is not optional. */
    lemma RequiredRun(plan: StartPlan, i: nat)
      requires NoDup(specs) && DependencyOrdered(discovered, specs) && Elems(specs) <= discovered.Keys
      requires StartsUp(plan) && i < |specs| && specs[i] !in deployment.optional
      ensures specs[i] in WillRun(discovered, plan.outcome, specs)
    {
      var up := WillRun(discovered, plan.outcome, specs);
      StartReach(discovered, plan.outcome, specs);
      SurvivesAll(plan, up, i + 1, |specs|);
      assert Elems(discovered[specs[i]].dependencies) <= Before(specs, i) * up;
    }

    /** `_start`: migrations, then every module in dependency order. Afterwards exactly
        the modules that reach no unsuccessful start run, and the others have lost
        their tools and host rules. Any raise closes what was started, newest first,
        before it escapes. */
    method StartAll(plan: StartPlan) returns (raised: Option<StartError>)
      requires NoDup(specs) && DependencyOrdered(discovered, specs) && Listed(disabled) !! Elems(specs)
      requires Elems(specs) <= discovered.Keys && started == [] && log == []
      modifies `started, `log, `disabled, `loaded, `hostRules, `settings, `tools, `owners
      ensures Running()
      ensures raised.None? <==> StartsUp(plan)
      ensures raised.None? ==>
        var up := WillRun(discovered, plan.outcome, specs);
        && Elems(started) == up && Live(log) == up && Listed(disabled) == Listed(old(disabled)) + (Elems(specs) - up)
        && Held() == Reduced(old(Held()), Elems(specs) - up)
      ensures raised.Some? ==> started == [] && Live(log) == {}
    {
      StartReach(discovered, plan.outcome, specs);
      raised := MigrateAll(plan);
      if raised.Some? {
        return;
      }
      raised := StartLoop(plan, WillRun(discovered, plan.outcome, specs));
      if raised.Some? {
        CloseAll();
      }
    }

    /** How far the start loop has come: what the disabled modules had is gone. */
    ghost predicate Reached(was: Holdings, seen: set<Name>, up: set<Name>, gone: set<Name>)
      reads `discovered, `started, `log, `disabled, `loaded, `hostRules, `settings, `tools, `owners
    {
      Starting(seen, up, gone) && Held() == Reduced(was, seen - up)
    }

    method StartStep(plan: StartPlan, n: Name, ghost was: Holdings, ghost seen: set<Name>, ghost up: set<Name>, ghost gone: set<Name>)
      returns (raised: Option<StartError>)
      requires n in discovered && n !in seen
      requires Elems(discovered[n].dependencies) <= seen && gone !! seen
      requires n in up <==> plan.outcome(n).Ready? && Elems(discovered[n].dependencies) <= seen * up
      requires Reached(was, seen, up, gone)
      modifies `started, `log, `disabled, `loaded, `hostRules, `settings, `tools, `owners
      ensures raised.None? <==> Survives(plan, n, Elems(discovered[n].dependencies) <= seen * up)
      ensures raised.None? ==> Reached(was, seen + {n}, up, gone)
      ensures Running()
    {
      DoneNext(was, seen, up, n);
      raised := StartNext(plan, n, seen, up, gone);
    }

    lemma ReachedNothing(up: set<Name>)
      requires started == [] && log == []
      ensures Reached(Held(), {}, up, Listed(disabled))
    {
      assert Listed(disabled) + ({} - up) == Listed(disabled) && {} - up == {} && {} * up == {};
      ReducedOne(Held(), "");
    }

    /** The turn of the start loop for the module at `i`. */
    method StartAt(plan: StartPlan, i: nat, ghost was: Holdings, ghost up: set<Name>, ghost gone: set<Name>)
      returns (raised: Option<StartError>)
      requires i < |specs| && NoDup(specs) && DependencyOrdered(discovered, specs) && gone !! Elems(specs)
      requires StartResult(discovered, plan.outcome, specs, up)
      requires Reached(was, Before(specs, i), up, gone) && SurvivesFirst(plan, up, i)
      modifies `started, `log, `disabled, `loaded, `hostRules, `settings, `tools, `owners
      ensures raised.None? <==> SurvivesFirst(plan, up, i + 1)
      ensures raised.None? ==> Reached(was, Before(specs, i + 1), up, gone)
      ensures Running()
    {
      BeforeStep(specs, i);
      BeforeWithin(specs, i);
      DependenciesBefore(i);
      raised := StartStep(plan, specs[i], was, Before(specs, i), up, gone);
    }

    method StartLoop(plan: StartPlan, ghost up: set<Name>) returns (raised: Option<StartError>)
      requires NoDup(specs) && DependencyOrdered(discovered, specs) && Listed(disabled) !! Elems(specs)
      requires StartResult(discovered, plan.outcome, specs, up)
      requires started == [] && log == []
      modifies `started, `log, `disabled, `loaded, `hostRules, `settings, `tools, `owners
      ensures Running()
      ensures raised.None? <==> SurvivesFirst(plan, up, |specs|)
      ensures raised.None? ==> Reached(old(Held()), Elems(specs), up, Listed(old(disabled)))
    {
      ghost var gone, was := Listed(disabled), Held();
      ReachedNothing(up);
      for i := 0 to |specs|
        invariant Reached(was, Before(specs, i), up, gone) && SurvivesFirst(plan, up, i)
      {
        raised := StartAt(plan, i, was, up, gone);
        if raised.Some? {
          NotAll(plan, up, i + 1);
          return;
        }
      }
      BeforeAll(specs);
      return None;
    }

    lemma DoneNext(was: Holdings, seen: set<Name>, up: set<Name>, n: Name)
      ensures (seen + {n}) - up == if n in up then seen - up else seen - up + {n}
      ensures Reduced(Reduced(was, seen - up), {n}) == Reduced(was, seen - up + {n})
    {
      RunningSets(seen, up, n);
      ReducedTwice(was, seen - up, n);
    }

    /** Loading and starting. The application comes up unless the load or the startup
        aborts, and then exactly those loadable modules run that reach no unsuccessful
        start; every other requested module is listed as disabled and has neither a
        host rule nor guild settings nor a tool. The guild settings are bound in between,
        for the loaded modules that declare some. */
    method Boot(plan: StartPlan, declared: set<Name>) returns (loadError: Option<ModuleError>, startError: Option<StartError>)
      requires modules == [] && hostRules == {} && owners == map[] && disabled == [] && loaded == [] && specs == []
      requires started == [] && log == []
      modifies this
      ensures loadError.Some? <==> LoadAborts(deployment)
      ensures loadError.None? ==> Running() && (startError.None? <==> StartsUp(plan))
      ensures loadError.None? && startError.Some? ==> started == [] && Live(log) == {}
      ensures loadError.None? && startError.None? ==>
        && Elems(specs) == (set n | n in deployment.Names() && Loadable(deployment, n))
        && Live(log) == Elems(started) == Elems(loaded) == hostRules == WillRun(discovered, plan.outcome, specs)
        && settings == declared * Live(log) && Listed(disabled) == deployment.Names() - Live(log)
        && (forall t :: t in tools <==> t in old(tools) || (t in owners && owners[t] in Live(log)))
    {
      startError := None;
      loadError := Load();
      if loadError.None? {
        LoadableDiscovered(Elems(specs));
        settings := declared * Elems(specs);
        ghost var was := Held();
        startError := StartAll(plan);
        if startError.None? {
          ghost var up := WillRun(discovered, plan.outcome, specs);
          assert Elems(specs) - (Elems(specs) - up) == up;
          RegistryReduced(old(tools), was, Elems(specs) - up);
        }
      }
    }
  }

  // ----- cutting an order down

  /** A list comprehension that keeps the members of `p`, in order. */
  function Keep(s: seq<Name>, p: set<Name>): seq<Name> {
    if s == [] then [] else
      var front := Keep(s[..|s| - 1], p);
      if s[|s| - 1] in p then front + [s[|s| - 1]] else front
  }

  lemma {:induction false} KeepElems(s: seq<Name>, p: set<Name>)
    ensures Elems(Keep(s, p)) == Elems(s) * p
    ensures NoDup(s) ==> NoDup(Keep(s, p))
  {
    if s != [] {
      var front, x := s[..|s| - 1], s[|s| - 1];
      KeepElems(front, p);
      assert s == front + [x];
      ElemsSnoc(front, x);
      ElemsSnoc(Keep(front, p), x);
      if NoDup(s) && x in p {
        assert x !in front;
        assert x !in Elems(Keep(front, p));
        NoDupSnoc(Keep(front, p), x);
      }
    }
  }

  /** Keeping a part that is closed under dependencies keeps the dependency order. */
  lemma {:induction false} KeepOrdered(g: Installed, s: seq<Name>, p: set<Name>)
    requires DependencyOrdered(g, s)
    requires forall n, d :: n in p && n in s && Edge(g, n, d) ==> d in p
    ensures DependencyOrdered(g, Keep(s, p))
  {
    if s != [] {
      var front, x := s[..|s| - 1], s[|s| - 1];
      forall i, d | 0 <= i < |front| && Edge(g, front[i], d) ensures d in front[..i] {
        assert Edge(g, s[i], d) && s[..i] == front[..i];
      }
      KeepOrdered(g, front, p);
      if x in p {
        KeepElems(front, p);
        forall d | Edge(g, x, d) ensures d in Keep(front, p) {
          assert Edge(g, s[|s| - 1], d);
          assert d in Elems(front) * p;
        }
        OrderedSnoc(g, Keep(front, p), x);
      }
    }
  }

  /** `dict.update` on keys: new names go to the end. */
  method Merge(selected: seq<Name>, more: seq<Name>) returns (r: seq<Name>)
    requires NoDup(selected)
    ensures NoDup(r) && Elems(r) == Elems(selected) + Elems(more) && selected <= r
  {
    r := selected;
    for i := 0 to |more|
      invariant NoDup(r) && selected <= r && Elems(r) == Elems(selected) + Elems(more[..i])
    {
      if more[i] !in r {
        NoDupSnoc(r, more[i]);
        r := r + [more[i]];
      }
      assert more[..i + 1] == more[..i] + [more[i]];
    }
    assert more[..|more|] == more;
  }
}
