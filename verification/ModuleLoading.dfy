/** `ModuleManager.load` of bot/app/modules.py: every requested module is a root
    whose dependency closure is validated on its own, so that a broken optional
    module cannot take unrelated modules with it. */
module ModuleLoading {
  import opened Wrappers
  import opened Sequences
  import opened ModuleGraph
  import opened ModuleSelection

  /** What looking up one entry point gives. */
  datatype Discovery = Found(spec: ModuleSpec) | Absent | Broken

  /** What `ModuleSpec.create` does: it registers tools and returns or raises. */
  datatype Composition = Composition(tools: set<string>, ok: bool)

  /** One deployment: the configuration and the foreign modules' behaviour. */
  datatype Deployment = Deployment(
    names: seq<Name>,
    optional: set<Name>,
    discover: Name -> Discovery,
    host: Host,
    create: Name -> Composition)
  {
    ghost function Names(): set<Name> { Elems(names) }
    ghost function Discovered(): Installed {
      map n | n in names && discover(n).Found? :: discover(n).spec
    }
    ghost function Failures(): set<Name> { set n | n in names && discover(n).Broken? }
  }

  // ----- reachability

  ghost predicate WalkFromTo(g: Installed, names: set<Name>, a: Name, b: Name, p: seq<Name>) {
    WalkWithin(g, names, p) && p[0] == a && p[|p| - 1] == b
  }

  ghost predicate Reaches(g: Installed, names: set<Name>, a: Name, b: Name) {
    exists p :: WalkFromTo(g, names, a, b, p)
  }

  ghost function ReachSet(g: Installed, names: set<Name>, a: Name): set<Name> {
    set b | b in names && Reaches(g, names, a, b)
  }

  /** Whether `a` is, or needs directly or indirectly, a member of `bad`. */
  ghost predicate ReachesAny(g: Installed, names: set<Name>, bad: set<Name>, a: Name) {
    exists b :: b in bad && Reaches(g, names, a, b)
  }

  lemma ReachesSelf(g: Installed, names: set<Name>, a: Name)
    requires a in names
    ensures Reaches(g, names, a, a)
  {
    assert WalkFromTo(g, names, a, a, [a]);
  }

  lemma ReachesStep(g: Installed, names: set<Name>, a: Name, d: Name, b: Name)
    requires a in names && Edge(g, a, d) && Reaches(g, names, d, b)
    ensures Reaches(g, names, a, b)
  {
    var p :| WalkFromTo(g, names, d, b, p);
    var q := [a] + p;
    forall i | 0 <= i < |q| - 1 ensures Edge(g, q[i], q[i + 1]) {
      if i > 0 { assert Edge(g, p[i - 1], p[i]); }
    }
    assert Elems(q) == {a} + Elems(p);
    assert WalkFromTo(g, names, a, b, q);
  }

  lemma WalkTail(g: Installed, names: set<Name>, a: Name, b: Name, p: seq<Name>)
    requires WalkFromTo(g, names, a, b, p) && |p| >= 2
    ensures Edge(g, a, p[1]) && p[1] in names && WalkFromTo(g, names, p[1], b, p[1..])
  {
    assert Edge(g, p[0], p[1]);
    forall i | 0 <= i < |p[1..]| - 1 ensures Edge(g, p[1..][i], p[1..][i + 1]) {
      assert Edge(g, p[i + 1], p[i + 2]);
    }
    assert p[1] in Elems(p);
  }

  lemma ReachesEnds(g: Installed, names: set<Name>, a: Name, b: Name)
    requires Reaches(g, names, a, b)
    ensures a in names && b in names
  {
    var p :| WalkFromTo(g, names, a, b, p);
    assert p[0] in Elems(p) && p[|p| - 1] in Elems(p);
  }

  lemma {:induction false} WalkConcat(g: Installed, names: set<Name>, a: Name, b: Name, c: Name, p: seq<Name>)
    requires WalkFromTo(g, names, a, b, p) && Reaches(g, names, b, c)
    ensures Reaches(g, names, a, c)
    decreases |p|
  {
    if |p| >= 2 {
      WalkTail(g, names, a, b, p);
      WalkConcat(g, names, p[1], b, c, p[1..]);
      ReachesEnds(g, names, a, b);
      ReachesStep(g, names, a, p[1], c);
    }
  }

  lemma ReachesTransitive(g: Installed, names: set<Name>, a: Name, b: Name, c: Name)
    requires Reaches(g, names, a, b) && Reaches(g, names, b, c)
    ensures Reaches(g, names, a, c)
  {
    var p :| WalkFromTo(g, names, a, b, p);
    WalkConcat(g, names, a, b, c, p);
  }

  lemma ReachesAnyUnfold(g: Installed, names: set<Name>, bad: set<Name>, a: Name)
    requires a in names && bad <= names
    ensures ReachesAny(g, names, bad, a) <==>
            a in bad || exists d :: d in names && Edge(g, a, d) && ReachesAny(g, names, bad, d)
  {
    if ReachesAny(g, names, bad, a) && a !in bad {
      var b :| b in bad && Reaches(g, names, a, b);
      var p :| WalkFromTo(g, names, a, b, p);
      WalkTail(g, names, a, b, p);
      assert Reaches(g, names, p[1], b);
      assert ReachesAny(g, names, bad, p[1]);
    }
    if a in bad {
      ReachesSelf(g, names, a);
    }
    forall d | d in names && Edge(g, a, d) && ReachesAny(g, names, bad, d)
      ensures ReachesAny(g, names, bad, a)
    {
      var b :| b in bad && Reaches(g, names, d, b);
      ReachesStep(g, names, a, d, b);
    }
  }

  /** A set that contains `a` and is closed within `names` holds all `a` reaches. */
  lemma {:induction false} WalkStays(g: Installed, names: set<Name>, s: set<Name>, a: Name, b: Name, p: seq<Name>)
    requires WalkFromTo(g, names, a, b, p) && a in s
    requires forall n, d :: n in s && Edge(g, n, d) && d in names ==> d in s
    ensures b in s && Elems(p) <= s
    decreases |p|
  {
    if |p| >= 2 {
      WalkTail(g, names, a, b, p);
      WalkStays(g, names, s, p[1], b, p[1..]);
      assert Elems(p) == {p[0]} + Elems(p[1..]) by { assert p == [p[0]] + p[1..]; }
    } else {
      assert p == [a];
    }
  }

  /** The closure found from a root is what the root reaches. */
  lemma ClosureIsReachSet(g: Installed, names: set<Name>, root: Name, s: set<Name>)
    requires root in s && s <= names
    requires forall n, d :: n in s && Edge(g, n, d) && d in names ==> d in s
    requires forall n :: n in s ==> Reaches(g, names, root, n)
    ensures s == ReachSet(g, names, root)
  {
    forall b | b in ReachSet(g, names, root) ensures b in s {
      var p :| WalkFromTo(g, names, root, b, p);
      WalkStays(g, names, s, root, b, p);
    }
  }

  lemma ReachSetShrinks(g: Installed, names: set<Name>, a: Name, b: Name)
    requires b in ReachSet(g, names, a)
    ensures ReachSet(g, names, b) <= ReachSet(g, names, a)
  {
    forall c | c in ReachSet(g, names, b) ensures c in ReachSet(g, names, a) {
      ReachesTransitive(g, names, a, b, c);
    }
  }

  // ----- validity of one root

  /** A valid set stays valid when cut down to a closed part: validity is
      antitone on closed sets. */
  lemma ValidityIsAntitone(g: Installed, host: Host, big: set<Name>, small: set<Name>)
    requires ValidSet(g, host, big) && small <= big && Closed(g, small)
    ensures ValidSet(g, host, small)
  {
    forall p ensures !Cycle(g, small, p) {
      assert !Cycle(g, big, p);
    }
    forall n | n in small ensures LocallyValid(host, n, g[n]) && Served(g, small, n) {
      assert n in big;
      forall q | q in g[n].consumed ensures q.provider in small {
        assert Edge(g, n, q.provider);
      }
    }
  }

  ghost predicate RootOk(w: Deployment, n: Name) {
    var reach := ReachSet(w.Discovered(), w.Names(), n);
    n in w.Names() && reach !! w.Failures() && ValidSet(w.Discovered(), w.host, reach)
  }

  lemma RootOkDescends(w: Deployment, root: Name, n: Name)
    requires RootOk(w, root) && n in ReachSet(w.Discovered(), w.Names(), root)
    ensures RootOk(w, n)
  {
    var g, names := w.Discovered(), w.Names();
    ReachSetShrinks(g, names, root, n);
    var reach := ReachSet(g, names, n);
    forall m, d | m in reach && Edge(g, m, d) ensures d in reach {
      assert d in ReachSet(g, names, root);
      ReachesSelf(g, names, d);
      ReachesStep(g, names, m, d, d);
      ReachesTransitive(g, names, n, m, d);
    }
    ValidityIsAntitone(g, w.host, ReachSet(g, names, root), reach);
  }

  ghost function SoundRoots(w: Deployment): set<Name> {
    set n | n in w.Names() && RootOk(w, n)
  }

  lemma SoundRootsClosed(w: Deployment, n: Name)
    requires n in SoundRoots(w)
    ensures n in ReachSet(w.Discovered(), w.Names(), n)
    ensures ReachSet(w.Discovered(), w.Names(), n) <= SoundRoots(w)
    ensures forall d :: Edge(w.Discovered(), n, d) ==> d in SoundRoots(w)
  {
    var g, names := w.Discovered(), w.Names();
    ReachesSelf(g, names, n);
    forall m | m in ReachSet(g, names, n) ensures m in SoundRoots(w) {
      RootOkDescends(w, n, m);
    }
  }

  /** All separately valid roots together satisfy every check but the prefix one. */
  lemma SoundRootsCompose(w: Deployment)
    ensures SoundGraph(w.Discovered(), SoundRoots(w))
    ensures Compatible(w.Discovered(), w.host, SoundRoots(w))
  {
    var g, names, sound := w.Discovered(), w.Names(), SoundRoots(w);
    forall n | n in sound
      ensures n in g && LocallyValid(w.host, n, g[n]) && Served(g, sound, n)
      ensures forall d :: Edge(g, n, d) ==> d in sound
    {
      SoundRootsClosed(w, n);
      assert n in ReachSet(g, names, n);
    }
    forall p ensures !Cycle(g, sound, p) {
      if Cycle(g, sound, p) {
        var n := p[0];
        assert n in Elems(p);
        var reach := ReachSet(g, names, n);
        SoundRootsClosed(w, n);
        assert WalkFromTo(g, names, n, n, p);
        WalkStays(g, names, reach, n, n, p);
        assert Cycle(g, reach, p);
        assert false;
      }
    }
  }

  /** Two modules share a prefix. */
  predicate Clash(a: Name, b: Name) {
    a != b && TablePrefix(a) == TablePrefix(b)
  }

  /** The closures of two roots hold modules that clash. */
  ghost predicate RootsCollide(w: Deployment, first: Name, second: Name) {
    exists a, b :: Clash(a, b)
      && a in ReachSet(w.Discovered(), w.Names(), first) && b in ReachSet(w.Discovered(), w.Names(), second)
  }

  /** The separately valid roots cannot be taken together exactly when the closures of two
      different ones collide; no closure of a valid root collides with itself. */
  lemma CollisionIsAcrossRoots(w: Deployment)
    ensures !PrefixesDistinct(SoundRoots(w)) <==>
      exists first, second :: first in SoundRoots(w) && second in SoundRoots(w) && RootsCollide(w, first, second)
    ensures forall root :: root in SoundRoots(w) ==> !RootsCollide(w, root, root)
  {
    if !PrefixesDistinct(SoundRoots(w)) {
      var a, b :| a in SoundRoots(w) && b in SoundRoots(w) && Clash(a, b);
      SoundRootsClosed(w, a);
      SoundRootsClosed(w, b);
      assert RootsCollide(w, a, b);
    }
    forall first, second | first in SoundRoots(w) && second in SoundRoots(w) && RootsCollide(w, first, second)
      ensures !PrefixesDistinct(SoundRoots(w)) && first != second
    {
      var a, b :| Clash(a, b) && a in ReachSet(w.Discovered(), w.Names(), first) && b in ReachSet(w.Discovered(), w.Names(), second);
      RootOkDescends(w, first, a);
      RootOkDescends(w, second, b);
    }
  }

  /** `installed=selected`: validating against the selection alone changes nothing. */
  lemma RestrictedValidity(g: Installed, host: Host, s: set<Name>)
    requires s <= g.Keys
    ensures ValidSet(map n | n in s :: g[n], host, s) <==> ValidSet(g, host, s)
    ensures SoundGraph(map n | n in s :: g[n], s) <==> SoundGraph(g, s)
    ensures Closed(g, s) ==> (Compatible(map n | n in s :: g[n], host, s) <==> Compatible(g, host, s))
  {
    var r: Installed := map n | n in s :: g[n];
    forall p ensures Cycle(g, s, p) <==> Cycle(r, s, p) {
      RestrictedCycle(g, s, p);
    }
    assert Closed(g, s) <==> Closed(r, s) by {
      forall n, d | n in s ensures Edge(g, n, d) <==> Edge(r, n, d) {}
    }
    if Closed(g, s) {
      assert Compatible(g, host, s) <==> Compatible(r, host, s);
    }
  }

  lemma RestrictedCycle(g: Installed, s: set<Name>, p: seq<Name>)
    requires s <= g.Keys
    ensures Cycle(g, s, p) <==> Cycle(map n | n in s :: g[n], s, p)
  {
    var r: Installed := map n | n in s :: g[n];
    if Elems(p) <= s {
      forall i | 0 <= i < |p| - 1 ensures Edge(g, p[i], p[i + 1]) <==> Edge(r, p[i], p[i + 1]) {
        assert p[i] in Elems(p);
      }
    }
  }

  // ----- what loading has to produce

  ghost predicate LacksActivation(w: Deployment, n: Name) {
    && n in w.Discovered()
    && exists c :: c in w.Discovered()[n].activationCapabilities && c !in w.host.available
  }

  ghost function Unactivatable(w: Deployment): set<Name> {
    set n | n in w.Names() && LacksActivation(w, n)
  }

  ghost function Uncreatable(w: Deployment): set<Name> {
    set n | n in w.Names() && !w.create(n).ok
  }

  /** Separately valid, and needing no module without its activation capability. */
  ghost predicate Active(w: Deployment, n: Name) {
    RootOk(w, n) && !ReachesAny(w.Discovered(), w.Names(), Unactivatable(w), n)
  }

  ghost predicate Loadable(w: Deployment, n: Name) {
    Active(w, n) && !ReachesAny(w.Discovered(), w.Names(), Uncreatable(w), n)
  }

  lemma LoadableUnfold(w: Deployment, n: Name)
    requires Active(w, n)
    ensures n in w.Discovered() && n in w.Names()
    ensures Loadable(w, n) <==>
      w.create(n).ok && forall d :: d in w.Discovered()[n].dependencies ==> Loadable(w, d)
    ensures forall d :: d in w.Discovered()[n].dependencies ==> Active(w, d) && d in w.Names()
  {
    var g, names := w.Discovered(), w.Names();
    SoundRootsClosed(w, n);
    ReachesAnyUnfold(g, names, Unactivatable(w), n);
    ReachesAnyUnfold(g, names, Uncreatable(w), n);
    forall d | d in g[n].dependencies ensures Active(w, d) && d in names && Edge(g, n, d) {
      assert Edge(g, n, d);
    }
  }

  /** Exactly the deployments that abort instead of loading. */
  ghost predicate LoadAborts(w: Deployment) {
    || !(w.optional <= w.Names())
    || !NoDup(w.names)
    || (exists n :: n in w.Names() - w.optional && !RootOk(w, n))
    || !PrefixesDistinct(SoundRoots(w))
    || (exists n :: n in w.Names() - w.optional && Active(w, n) && !Loadable(w, n))
  }

  /** A module is loadable exactly if all that it reaches is a valid set of installed modules
      whose activation capabilities are there and whose composition works. */
  lemma LoadableMeans(w: Deployment, n: Name)
    ensures var g, names := w.Discovered(), w.Names();
      Loadable(w, n) <==>
        && n in w.names && ValidSet(g, w.host, ReachSet(g, names, n))
        && forall b :: Reaches(g, names, n, b) ==> w.create(b).ok && Activates(w, b)
  {
    var g, names := w.Discovered(), w.Names();
    if n in w.names {
      forall b | Reaches(g, names, n, b) ensures b in ReachSet(g, names, n) {
        ReachesEnds(g, names, n, b);
      }
      if ReachSet(g, names, n) <= g.Keys {
        forall b | Reaches(g, names, n, b)
          ensures b !in w.Failures() && (Activates(w, b) <==> b !in Unactivatable(w)) && (w.create(b).ok <==> b !in Uncreatable(w))
        {
          assert b in g;
        }
      }
    }
  }

  /** A module is there, and so is every capability that it needs to be activated. */
  predicate Activates(w: Deployment, n: Name) {
    w.discover(n).Found? && forall c :: c in w.discover(n).spec.activationCapabilities ==> c in w.host.available
  }

  /** What is discovered is what the entry points of the requested names give. */
  lemma DiscoveredMeans(w: Deployment, n: Name)
    ensures n in w.Discovered() <==> n in w.names && w.discover(n).Found?
    ensures n in w.Discovered() ==> w.Discovered()[n] == w.discover(n).spec
    ensures n in w.Failures() <==> n in w.names && w.discover(n).Broken?
  {
  }

  /** A deployment whose modules are valid together, can all be activated and all be composed
      does not abort and has all its modules loadable. */
  lemma HealthyLoads(w: Deployment)
    requires NoDup(w.names) && w.optional <= w.Names() && ValidSet(w.Discovered(), w.host, w.Names())
    requires forall n :: n in w.names ==> w.create(n).ok && Activates(w, n)
    ensures !LoadAborts(w) && forall n :: n in w.names ==> Loadable(w, n)
  {
    var g, names := w.Discovered(), w.Names();
    forall n | n in names ensures RootOk(w, n) && Loadable(w, n) {
      var reach := ReachSet(g, names, n);
      forall m, d | m in reach && Edge(g, m, d) ensures d in reach {
        ReachesSelf(g, names, d);
        ReachesStep(g, names, m, d, d);
        ReachesTransitive(g, names, n, m, d);
      }
      ValidityIsAntitone(g, w.host, names, reach);
      forall b | Reaches(g, names, n, b) ensures w.create(b).ok && Activates(w, b) {
        ReachesEnds(g, names, n, b);
      }
      LoadableMeans(w, n);
    }
  }

  /** A deployment that loads has every required module valid, and loadable unless it needs
      one that lacks an activation capability. */
  lemma RequiredAreLoadable(w: Deployment, n: Name)
    requires !LoadAborts(w) && n in w.names && n !in w.optional
    ensures RootOk(w, n)
    ensures Loadable(w, n) || exists b :: Reaches(w.Discovered(), w.Names(), n, b) && !Activates(w, b)
  {
    assert n in w.Names() - w.optional;
    if !Loadable(w, n) {
      var b :| b in Unactivatable(w) && Reaches(w.Discovered(), w.Names(), n, b);
      assert !Activates(w, b);
    }
  }

  // ----- closure discovery

  /** The nested `collect` of `load` and the closure list that it grows. */
  class ClosureCollector {
    const names: set<Name>
    const discovered: Installed
    const failures: set<Name>
    var closure: seq<Name>

    constructor (names: set<Name>, discovered: Installed, failures: set<Name>)
      requires failures <= names
      ensures this.names == names && this.discovered == discovered && this.failures == failures
      ensures closure == [] && Valid()
    {
      this.names, this.discovered, this.failures := names, discovered, failures;
      closure := [];
    }

    ghost predicate Valid()
      reads this
    {
      failures <= names && NoDup(closure) && Elems(closure) <= names && Elems(closure) !! failures
    }

    ghost predicate Expanded(n: Name)
      reads this
    {
      forall d :: Edge(discovered, n, d) && d in names ==> d in closure
    }

    /** Adds everything `current` reaches, or raises the failure of a reached
        entry point. */
    method Collect(current: Name) returns (failed: Option<Name>)
      requires Valid()
      modifies this
      ensures failed.None? ==>
        && Valid() && old(closure) <= closure
        && (current in names ==> current in closure)
        && forall n :: n in closure && n !in old(closure) ==>
             Expanded(n) && Reaches(discovered, names, current, n)
      ensures failed.Some? ==> failed.value in failures && Reaches(discovered, names, current, failed.value)
      decreases names - Elems(closure)
    {
      if current in failures {
        ReachesSelf(discovered, names, current);
        return Some(current);
      }
      if current in closure || current !in names {
        return None;
      }
      ghost var before := closure;
      NoDupSnoc(closure, current);
      closure := closure + [current];
      ReachesSelf(discovered, names, current);
      if current in discovered {
        var dependencies := discovered[current].dependencies;
        for i := 0 to |dependencies|
          invariant Valid() && before + [current] <= closure
          invariant forall d :: d in dependencies[..i] && d in names ==> d in closure
          invariant forall n :: n in closure && n !in before && n != current ==>
            Expanded(n) && Reaches(discovered, names, current, n)
        {
          ghost var mid := closure;
          assert Edge(discovered, current, dependencies[i]);
          assert names - Elems(closure) < names - Elems(before) by {
            assert current in Elems(closure) && current !in Elems(before);
          }
          failed := Collect(dependencies[i]);
          if failed.Some? {
            ReachesStep(discovered, names, current, dependencies[i], failed.value);
            return;
          }
          forall n | n in closure && n !in before && n != current
            ensures Expanded(n) && Reaches(discovered, names, current, n)
          {
            if n !in mid {
              ReachesStep(discovered, names, current, dependencies[i], n);
            }
          }
          assert dependencies[..i + 1] == dependencies[..i] + [dependencies[i]];
        }
        assert dependencies[..|dependencies|] == dependencies;
      }
      return None;
    }
  }

  /** One root: the closure walk and its validation. */
  method ResolveRoot(w: Deployment, discovered: Installed, failures: set<Name>, root: Name)
    returns (r: Result<seq<Name>, ModuleError>)
    requires discovered == w.Discovered() && failures == w.Failures() && root in w.Names()
    ensures r.Success? <==> RootOk(w, root)
    ensures r.Success? ==> Elems(r.value) == ReachSet(discovered, w.Names(), root)
    ensures r.Failure? && r.error.BrokenEntryPoint? ==>
      r.error.name in failures && Reaches(discovered, w.Names(), root, r.error.name)
  {
    ghost var g, names := w.Discovered(), w.Names();
    var collector := new ClosureCollector(Elems(w.names), discovered, failures);
    var failed := collector.Collect(root);
    if failed.Some? {
      assert failed.value in ReachSet(g, names, root);
      return Failure(BrokenEntryPoint(failed.value));
    }
    forall n | n in Elems(collector.closure)
      ensures collector.Expanded(n) && Reaches(g, names, root, n)
    {
    }
    ClosureIsReachSet(g, names, root, Elems(collector.closure));
    r := ValidateSelection(collector.closure, discovered, w.host);
  }
}
