/** The dependency graph of configured modules and the depth-first ordering of
    bot/app/modules.py. A module specification is found under its name, so the
    map key stands for the name it carries. */
module ModuleGraph {
  import opened Wrappers
  import opened Sequences

  type Name = string
  type Capability = string

  datatype Service = Service(name: string, version: int)
  datatype Requirement = Requirement(service: Service, provider: Name)

  datatype ModuleSpec = ModuleSpec(
    apiVersion: int,
    dependencies: seq<Name>,
    requiresCapabilities: seq<Capability>,
    activationCapabilities: seq<Capability>,
    provided: seq<Service>,
    consumed: seq<Requirement>)

  type Installed = map<Name, ModuleSpec>

  /** The errors that selecting modules raises, in the order the code checks. */
  datatype ModuleError =
    | OptionalNotRequested
    | DuplicateName
    | NotInstalled(name: Name)
    | DependencyCycle(name: Name)
    | RequiresActive(name: Name, dependency: Name)
    | SharedPrefix(first: Name, second: Name)
    | WrongApi(name: Name)
    | MissingCapability(name: Name, capability: Capability)
    | InvalidDeclaration(name: Name)
    | UnmetService(name: Name, requirement: Requirement)
    | BrokenEntryPoint(name: Name)
    | DependencyUnavailable(name: Name, dependency: Name)
    | CreateFailed(name: Name)

  predicate Edge(g: Installed, n: Name, d: Name) {
    n in g && d in g[n].dependencies
  }

  /** A path along dependencies; a single module is a path to itself. */
  ghost predicate Walk(g: Installed, p: seq<Name>) {
    && p != []
    && forall i :: 0 <= i < |p| - 1 ==> Edge(g, p[i], p[i + 1])
  }

  ghost predicate WalkWithin(g: Installed, names: set<Name>, p: seq<Name>) {
    Walk(g, p) && Elems(p) <= names
  }

  ghost predicate Cycle(g: Installed, names: set<Name>, p: seq<Name>) {
    WalkWithin(g, names, p) && |p| >= 2 && p[0] == p[|p| - 1]
  }

  ghost predicate Acyclic(g: Installed, names: set<Name>) {
    forall p :: !Cycle(g, names, p)
  }

  ghost predicate Closed(g: Installed, names: set<Name>) {
    forall n, d :: n in names && Edge(g, n, d) ==> d in names
  }

  /** Every dependency of an entry stands strictly before it. */
  ghost predicate DependencyOrdered(g: Installed, order: seq<Name>) {
    forall i, d {:trigger Edge(g, order[i], d)} :: 0 <= i < |order| && Edge(g, order[i], d) ==> d in order[..i]
  }

  lemma OrderedSnoc(g: Installed, order: seq<Name>, n: Name)
    requires DependencyOrdered(g, order)
    requires forall d :: Edge(g, n, d) ==> d in order
    ensures DependencyOrdered(g, order + [n])
  {
    var longer := order + [n];
    forall i, d | 0 <= i < |longer| && Edge(g, longer[i], d)
      ensures d in longer[..i]
    {
      if i < |order| {
        assert longer[..i] == order[..i];
      } else {
        assert longer[..i] == order;
      }
    }
  }

  /** Along a walk the position in a dependency order falls, so a walk of two or
      more modules ends strictly before it starts. */
  lemma {:induction false} WalkGoesBack(g: Installed, order: seq<Name>, p: seq<Name>, i: nat)
    requires DependencyOrdered(g, order) && Walk(g, p)
    requires i < |order| && order[i] == p[0] && |p| >= 2
    ensures p[|p| - 1] in order[..i]
    decreases |p|
  {
    assert Edge(g, p[0], p[1]);
    var j :| 0 <= j < i && order[j] == p[1];
    if |p| > 2 {
      assert Walk(g, p[1..]) by {
        forall k | 0 <= k < |p[1..]| - 1 ensures Edge(g, p[1..][k], p[1..][k + 1]) {
          assert Edge(g, p[k + 1], p[k + 2]);
        }
      }
      WalkGoesBack(g, order, p[1..], j);
      assert order[..j] <= order[..i];
    }
  }

  lemma OrderedIsAcyclic(g: Installed, order: seq<Name>)
    requires DependencyOrdered(g, order) && NoDup(order)
    ensures Acyclic(g, Elems(order))
  {
    forall p ensures !Cycle(g, Elems(order), p) {
      if Cycle(g, Elems(order), p) {
        assert p[0] in Elems(order);
        var i :| 0 <= i < |order| && order[i] == p[0];
        WalkGoesBack(g, order, p, i);
        assert false;
      }
    }
  }

  /** What `_ordered_specs` accepts. */
  ghost predicate Orderable(g: Installed, names: seq<Name>) {
    && NoDup(names)
    && Elems(names) <= g.Keys
    && Closed(g, Elems(names))
    && Acyclic(g, Elems(names))
  }

  /** What each ordering error claims about the request. */
  ghost predicate OrderErrorHolds(e: ModuleError, g: Installed, names: seq<Name>) {
    match e
    case DuplicateName => !NoDup(names)
    case NotInstalled(n) => NoDup(names) && n in names && n !in g
    case DependencyCycle(n) =>
      && NoDup(names) && Elems(names) <= g.Keys
      && exists p :: Cycle(g, Elems(names), p) && n == p[0]
    case RequiresActive(n, d) =>
      && NoDup(names) && Elems(names) <= g.Keys
      && n in names && Edge(g, n, d) && d !in names
    case _ => false
  }

  lemma OrderErrorRefutes(e: ModuleError, g: Installed, names: seq<Name>)
    requires OrderErrorHolds(e, g, names)
    ensures !Orderable(g, names)
  {
    if e.NotInstalled? {
      assert e.name in Elems(names);
    } else if e.RequiresActive? {
      assert e.name in Elems(names) && e.dependency !in Elems(names);
    }
  }

  /** Finds a repeated name the way `len(set(x)) != len(x)` does. */
  method HasDuplicate(names: seq<Name>) returns (duplicate: bool)
    ensures duplicate <==> !NoDup(names)
  {
    NoDupCardinality(names);
    duplicate := |Elems(names)| != |names|;
  }

  /** The nested `visit` of `_ordered_specs` with the variables it closes over. */
  class DependencyVisitor {
    const installed: Installed
    const requested: set<Name>
    var visiting: set<Name>
    var visited: set<Name>
    var ordered: seq<Name>
    /** The modules being visited, outermost first. */
    ghost var trail: seq<Name>

    constructor (installed: Installed, names: seq<Name>)
      requires Elems(names) <= installed.Keys
      ensures this.installed == installed && requested == Elems(names)
      ensures Valid() && trail == [] && ordered == []
    {
      this.installed := installed;
      requested := Elems(names);
      visiting, visited, ordered, trail := {}, {}, [], [];
    }

    ghost predicate Valid()
      reads this
    {
      && requested <= installed.Keys
      && visited + visiting <= requested
      && visited !! visiting
      && visiting == Elems(trail)
      && (trail != [] ==> Walk(installed, trail))
      && visited == Elems(ordered)
      && NoDup(ordered)
      && DependencyOrdered(installed, ordered)
    }

    /** What a raised error means for the requested modules. */
    ghost predicate Genuine(e: ModuleError)
      reads this
    {
      || (e.DependencyCycle? && exists p :: Cycle(installed, requested, p) && e.name == p[0])
      || (e.RequiresActive? && e.name in requested
          && Edge(installed, e.name, e.dependency) && e.dependency !in requested)
    }

    lemma TrailCycle(name: Name)
      requires Valid() && name in visiting
      requires trail != [] && Edge(installed, trail[|trail| - 1], name)
      ensures exists p :: Cycle(installed, requested, p) && name == p[0]
    {
      var i :| 0 <= i < |trail| && trail[i] == name;
      var p := trail[i..] + [name];
      assert Walk(installed, p) by {
        forall k | 0 <= k < |p| - 1 ensures Edge(installed, p[k], p[k + 1]) {
          if i + k + 1 < |trail| {
            assert Edge(installed, trail[i + k], trail[i + k + 1]);
          }
        }
      }
      assert Elems(p) <= visiting;
      assert Cycle(installed, requested, p);
    }

    /** Appends `name` after all it depends on, or raises. On a raise the
        partial result is abandoned with the exception. */
    method Visit(name: Name) returns (raised: Option<ModuleError>)
      requires Valid() && name in requested
      requires trail != [] ==> Edge(installed, trail[|trail| - 1], name)
      modifies this
      ensures raised.None? ==>
        && Valid() && trail == old(trail)
        && old(ordered) <= ordered && name in visited
      ensures raised.Some? ==> Genuine(raised.value)
      decreases requested - visiting
    {
      if name in visited {
        return None;
      }
      if name in visiting {
        TrailCycle(name);
        return Some(DependencyCycle(name));
      }
      var before := visiting;
      ghost var outer := trail;
      visiting := visiting + {name};
      trail := trail + [name];
      ElemsSnoc(outer, name);
      assert Walk(installed, trail);
      var dependencies := installed[name].dependencies;
      for i := 0 to |dependencies|
        invariant Valid() && trail == outer + [name] && visiting == before + {name}
        invariant old(ordered) <= ordered
        invariant Elems(dependencies[..i]) <= visited
      {
        var dependency := dependencies[i];
        assert Edge(installed, name, dependency);
        if dependency !in requested {
          return Some(RequiresActive(name, dependency));
        }
        assert requested - visiting < old(requested - visiting);
        raised := Visit(dependency);
        if raised.Some? {
          return;
        }
        assert dependencies[..i + 1] == dependencies[..i] + [dependency];
      }
      assert dependencies[..|dependencies|] == dependencies;
      assert name !in visited;
      forall d | Edge(installed, name, d) ensures d in ordered {
        assert d in Elems(dependencies);
      }
      OrderedSnoc(installed, ordered, name);
      NoDupSnoc(ordered, name);
      visiting := visiting - {name};
      visited := visited + {name};
      ordered := ordered + [name];
      trail := outer;
      assert visiting == before;
      return None;
    }
  }

  /** A duplicate-free dependency order of all the names shows them orderable. */
  lemma OrderShowsOrderable(g: Installed, names: seq<Name>, order: seq<Name>)
    requires NoDup(names) && Elems(names) <= g.Keys
    requires NoDup(order) && Elems(order) == Elems(names) && DependencyOrdered(g, order)
    ensures Orderable(g, names) && |order| == |names|
  {
    OrderedIsAcyclic(g, order);
    NoDupCardinality(order);
    NoDupCardinality(names);
    forall n, d | n in Elems(names) && Edge(g, n, d) ensures d in Elems(names) {
      assert n in Elems(order);
      var i :| 0 <= i < |order| && order[i] == n;
      assert d in order[..i];
      assert d in Elems(order);
    }
  }

  method FirstMissing(names: seq<Name>, installed: Installed) returns (missing: Option<Name>)
    ensures missing.None? <==> Elems(names) <= installed.Keys
    ensures missing.Some? ==> missing.value in names && missing.value !in installed
  {
    for i := 0 to |names|
      invariant Elems(names[..i]) <= installed.Keys
    {
      if names[i] !in installed {
        assert names[i] in Elems(names);
        return Some(names[i]);
      }
      assert names[..i + 1] == names[..i] + [names[i]];
    }
    assert names[..|names|] == names;
    return None;
  }

  /** The loop over the requested names that calls `visit`. */
  method VisitAll(names: seq<Name>, installed: Installed) returns (r: Result<seq<Name>, ModuleError>)
    requires NoDup(names) && Elems(names) <= installed.Keys
    ensures r.Success? ==>
      NoDup(r.value) && Elems(r.value) == Elems(names) && DependencyOrdered(installed, r.value)
    ensures r.Failure? ==> OrderErrorHolds(r.error, installed, names)
  {
    var visitor := new DependencyVisitor(installed, names);
    for i := 0 to |names|
      invariant visitor.Valid() && visitor.trail == []
      invariant visitor.installed == installed && visitor.requested == Elems(names)
      invariant Elems(names[..i]) <= visitor.visited
      invariant fresh(visitor)
    {
      var raised := visitor.Visit(names[i]);
      if raised.Some? {
        return Failure(raised.value);
      }
      assert names[..i + 1] == names[..i] + [names[i]];
    }
    assert names[..|names|] == names;
    return Success(visitor.ordered);
  }

  /** `_ordered_specs`: succeeds exactly on duplicate-free, installed, closed and
      acyclic requests, with a permutation that puts dependencies first. */
  method OrderedSpecs(names: seq<Name>, installed: Installed) returns (r: Result<seq<Name>, ModuleError>)
    ensures r.Success? <==> Orderable(installed, names)
    ensures r.Success? ==>
      && NoDup(r.value) && Elems(r.value) == Elems(names) && |r.value| == |names|
      && DependencyOrdered(installed, r.value)
    ensures r.Failure? ==> OrderErrorHolds(r.error, installed, names)
  {
    var duplicate := HasDuplicate(names);
    if duplicate {
      return Failure(DuplicateName);
    }
    var missing := FirstMissing(names, installed);
    if missing.Some? {
      return Failure(NotInstalled(missing.value));
    }
    r := VisitAll(names, installed);
    if r.Success? {
      OrderShowsOrderable(installed, names, r.value);
    } else {
      OrderErrorRefutes(r.error, installed, names);
    }
  }
}
