/** `validate_module_selection` of bot/app/modules.py: ordering, table prefixes,
    per-module declarations and cross-module services. */
module ModuleSelection {
  import opened Wrappers
  import opened Sequences
  import opened ModuleGraph

  /** What the core offers. `declarationsOk` stands for the name, settings,
      permission and guild-setting checks, which look at one module alone. */
  datatype Host = Host(apiVersion: int, available: set<Capability>, declarationsOk: (Name, ModuleSpec) -> bool)

  function TablePrefix(name: Name): string {
    seq(|name|, i requires 0 <= i < |name| => if name[i] == '-' then '_' else name[i])
  }

  /** The part of `validate_services` that other modules depend on: a provider
      must be another module, and a declared dependency. */
  predicate ServicesDeclared(n: Name, spec: ModuleSpec) {
    forall q :: q in spec.consumed ==> q.provider != n && q.provider in spec.dependencies
  }

  predicate LocallyValid(host: Host, n: Name, spec: ModuleSpec) {
    && spec.apiVersion == host.apiVersion
    && Elems(spec.requiresCapabilities) <= host.available
    && ServicesDeclared(n, spec)
    && host.declarationsOk(n, spec)
  }

  predicate Served(g: Installed, names: set<Name>, n: Name)
    requires n in g
  {
    forall q :: q in g[n].consumed ==>
      q.provider in names && q.provider in g && q.service in g[q.provider].provided
  }

  ghost predicate PrefixesDistinct(names: set<Name>) {
    forall a, b :: a in names && b in names && TablePrefix(a) == TablePrefix(b) ==> a == b
  }

  ghost predicate SoundGraph(g: Installed, names: set<Name>) {
    names <= g.Keys && Closed(g, names) && Acyclic(g, names)
  }

  ghost predicate Compatible(g: Installed, host: Host, names: set<Name>)
    requires names <= g.Keys
  {
    forall n :: n in names ==> LocallyValid(host, n, g[n]) && Served(g, names, n)
  }

  /** A set of modules that may run together. */
  ghost predicate ValidSet(g: Installed, host: Host, names: set<Name>) {
    SoundGraph(g, names) && PrefixesDistinct(names) && Compatible(g, host, names)
  }

  ghost predicate SelectionErrorHolds(e: ModuleError, g: Installed, host: Host, names: seq<Name>) {
    match e
    case SharedPrefix(a, b) =>
      && Orderable(g, names)
      && a in names && b in names && a != b && TablePrefix(a) == TablePrefix(b)
    case WrongApi(n) =>
      Orderable(g, names) && PrefixesDistinct(Elems(names)) && n in names && n in g
      && g[n].apiVersion != host.apiVersion
    case MissingCapability(n, c) =>
      Orderable(g, names) && PrefixesDistinct(Elems(names)) && n in names && n in g
      && c in g[n].requiresCapabilities && c !in host.available
    case InvalidDeclaration(n) =>
      Orderable(g, names) && PrefixesDistinct(Elems(names)) && n in names && n in g
      && !(ServicesDeclared(n, g[n]) && host.declarationsOk(n, g[n]))
    case UnmetService(n, q) =>
      Orderable(g, names) && PrefixesDistinct(Elems(names)) && n in names && n in g
      && q in g[n].consumed && q.provider in g && q.service !in g[q.provider].provided
    case _ => OrderErrorHolds(e, g, names)
  }

  lemma SelectionErrorRefutes(e: ModuleError, g: Installed, host: Host, names: seq<Name>)
    requires SelectionErrorHolds(e, g, host, names)
    ensures !(NoDup(names) && ValidSet(g, host, Elems(names)))
  {
    match e
    case SharedPrefix(a, b) => assert a in Elems(names) && b in Elems(names);
    case WrongApi(n) => assert n in Elems(names);
    case MissingCapability(n, c) => assert n in Elems(names) && c in Elems(g[n].requiresCapabilities);
    case InvalidDeclaration(n) => assert n in Elems(names);
    case UnmetService(n, q) => assert n in Elems(names);
    case _ => OrderErrorRefutes(e, g, names);
  }

  /** Where everything else holds, only a shared prefix can be reported. */
  lemma OnlyPrefixErrors(e: ModuleError, g: Installed, host: Host, names: seq<Name>)
    requires Orderable(g, names) && Compatible(g, host, Elems(names))
    requires SelectionErrorHolds(e, g, host, names)
    ensures e.SharedPrefix?
  {
    forall n | n in names ensures n in g && LocallyValid(host, n, g[n]) && Served(g, Elems(names), n) {
      assert n in Elems(names);
    }
    forall n, c | n in names && c in g[n].requiresCapabilities ensures c in host.available {
      assert c in Elems(g[n].requiresCapabilities);
    }
    NoOrderError(e, g, names);
  }

  lemma NoOrderError(e: ModuleError, g: Installed, names: seq<Name>)
    requires Orderable(g, names)
    ensures !OrderErrorHolds(e, g, names)
  {
    if OrderErrorHolds(e, g, names) {
      OrderErrorRefutes(e, g, names);
    }
  }

  /** The `by_prefix` loop. */
  method SharedPrefixIn(order: seq<Name>) returns (shared: Option<(Name, Name)>)
    requires NoDup(order)
    ensures shared.None? <==> PrefixesDistinct(Elems(order))
    ensures shared.Some? ==>
      && shared.value.0 in order && shared.value.1 in order && shared.value.0 != shared.value.1
      && TablePrefix(shared.value.0) == TablePrefix(shared.value.1)
  {
    var byPrefix: map<string, Name> := map[];
    for i := 0 to |order|
      invariant forall p :: p in byPrefix ==> byPrefix[p] in order[..i] && TablePrefix(byPrefix[p]) == p
      invariant forall j :: 0 <= j < i ==> TablePrefix(order[j]) in byPrefix && byPrefix[TablePrefix(order[j])] == order[j]
    {
      var prefix := TablePrefix(order[i]);
      if prefix in byPrefix {
        var previous := byPrefix[prefix];
        assert previous in Elems(order) && order[i] in Elems(order);
        return Some((previous, order[i]));
      }
      byPrefix := byPrefix[prefix := order[i]];
    }
    return None;
  }

  /** The per-module loop over API version, capabilities and declarations. */
  method FirstInvalid(g: Installed, host: Host, order: seq<Name>) returns (invalid: Option<ModuleError>)
    requires Elems(order) <= g.Keys
    ensures invalid.None? <==> forall n :: n in order ==> LocallyValid(host, n, g[n])
    ensures invalid.Some? ==>
      match invalid.value
      case WrongApi(n) => n in order && g[n].apiVersion != host.apiVersion
      case MissingCapability(n, c) => n in order && c in g[n].requiresCapabilities && c !in host.available
      case InvalidDeclaration(n) => n in order && !(ServicesDeclared(n, g[n]) && host.declarationsOk(n, g[n]))
      case _ => false
  {
    for i := 0 to |order|
      invariant forall n :: n in order[..i] ==> LocallyValid(host, n, g[n])
    {
      var n := order[i];
      assert n in Elems(order);
      var spec := g[n];
      if spec.apiVersion != host.apiVersion {
        return Some(WrongApi(n));
      }
      for k := 0 to |spec.requiresCapabilities|
        invariant Elems(spec.requiresCapabilities[..k]) <= host.available
      {
        if spec.requiresCapabilities[k] !in host.available {
          assert spec.requiresCapabilities[k] in Elems(spec.requiresCapabilities);
          return Some(MissingCapability(n, spec.requiresCapabilities[k]));
        }
        assert spec.requiresCapabilities[..k + 1] == spec.requiresCapabilities[..k] + [spec.requiresCapabilities[k]];
      }
      assert spec.requiresCapabilities[..|spec.requiresCapabilities|] == spec.requiresCapabilities;
      if !(ServicesDeclared(n, spec) && host.declarationsOk(n, spec)) {
        return Some(InvalidDeclaration(n));
      }
      assert order[..i + 1] == order[..i] + [n];
    }
    assert order[..|order|] == order;
    return None;
  }

  /** The loop matching consumed services with the declarations of their
      provider. A provider is a dependency, so it is part of the selection. */
  method FirstUnserved(g: Installed, order: seq<Name>) returns (unserved: Option<(Name, Requirement)>)
    requires SoundGraph(g, Elems(order))
    requires forall n :: n in order ==> n in Elems(order) && ServicesDeclared(n, g[n])
    ensures unserved.None? <==> forall n :: n in order ==> n in Elems(order) && Served(g, Elems(order), n)
    ensures unserved.Some? ==>
      var (n, q) := unserved.value;
      && n in order && n in g && q in g[n].consumed
      && q.provider in g && q.service !in g[q.provider].provided
  {
    for i := 0 to |order|
      invariant forall n :: n in order[..i] ==> n in Elems(order) && Served(g, Elems(order), n)
    {
      var n := order[i];
      assert n in Elems(order);
      for k := 0 to |g[n].consumed|
        invariant forall q :: q in g[n].consumed[..k] ==>
          q.provider in Elems(order) && q.service in g[q.provider].provided
      {
        var q := g[n].consumed[k];
        assert Edge(g, n, q.provider);
        if q.service !in g[q.provider].provided {
          assert !Served(g, Elems(order), n);
          return Some((n, q));
        }
        assert g[n].consumed[..k + 1] == g[n].consumed[..k] + [q];
      }
      assert g[n].consumed[..|g[n].consumed|] == g[n].consumed;
      assert order[..i + 1] == order[..i] + [n];
    }
    assert order[..|order|] == order;
    return None;
  }

  /** `validate_module_selection`: accepts exactly the duplicate-free valid sets. */
  method ValidateSelection(names: seq<Name>, g: Installed, host: Host) returns (r: Result<seq<Name>, ModuleError>)
    ensures r.Success? <==> NoDup(names) && ValidSet(g, host, Elems(names))
    ensures r.Success? ==>
      NoDup(r.value) && Elems(r.value) == Elems(names) && DependencyOrdered(g, r.value)
    ensures r.Failure? ==> SelectionErrorHolds(r.error, g, host, names)
  {
    if names == [] {
      OrderedIsAcyclic(g, []);
      assert Elems(names) == {} && Elems<Name>([]) == {};
      return Success([]);
    }
    r := OrderedSpecs(names, g);
    if r.Failure? {
      SelectionErrorRefutes(r.error, g, host, names);
      return;
    }
    var order := r.value;
    forall n ensures n in order <==> n in names {
      assert n in Elems(order) <==> n in Elems(names);
    }
    var shared := SharedPrefixIn(order);
    if shared.Some? {
      r := Failure(SharedPrefix(shared.value.0, shared.value.1));
      SelectionErrorRefutes(r.error, g, host, names);
      return;
    }
    var invalid := FirstInvalid(g, host, order);
    if invalid.Some? {
      SelectionErrorRefutes(invalid.value, g, host, names);
      return Failure(invalid.value);
    }
    var unserved := FirstUnserved(g, order);
    if unserved.Some? {
      r := Failure(UnmetService(unserved.value.0, unserved.value.1));
      SelectionErrorRefutes(r.error, g, host, names);
    }
  }
}
