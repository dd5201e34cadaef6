/** The extension dependency lock: the deterministic transitive closure of exact roots
    over a reference graph that may contain cycles, and the validation that accepts a lock
    exactly when it is the one the catalog would produce. */
module DependencyLock {
  import opened Sums
  import opened Names
  import opened KeyedLists

  /** An exact reference; `key` is its printed form, `exact` whether it is well-formed. */
  datatype Ref = Ref(schema: bool, key: Name, exact: bool)

  datatype Module = Module(key: Name)

  /** `schemas` are the option, input, result and event schemas of a descriptor,
      `dependencies` its other references, in the order the closure follows them. */
  datatype Descriptor = Descriptor(version: string, digest: string, runtime: Option<Module>, schemas: seq<Ref>,
    dependencies: seq<Ref>)

  datatype Schema = Schema(digest: string, dependencies: seq<Ref>)

  datatype Catalog = Catalog(extensions: map<Ref, Descriptor>, schemas: map<Ref, Schema>)

  datatype ExtensionPin = ExtensionPin(ref: Ref, version: string, digest: string)

  datatype SchemaPin = SchemaPin(ref: Ref, digest: string)

  /** A serialized list tells a missing list from an empty one. */
  datatype List<T> = Missing | Items(items: seq<T>)

  datatype Lock = Lock(version: int, roots: List<Ref>, extensions: List<ExtensionPin>, schemas: List<SchemaPin>,
    modules: List<Module>)

  const LOCK_VERSION := 1

  /** Lists built by appending are missing while nothing was appended. */
  function Appended<T>(items: seq<T>): List<T>
  {
    if items == [] then Missing else Items(items)
  }

  function Elements<T>(list: List<T>): seq<T>
  {
    match list
    case Missing => []
    case Items(items) => items
  }

  // ----- The reference graph ----------------------------------------------------------------

  /** A reference and whether it must be a schema. */
  type Demand = (Ref, bool)

  predicate Available(c: Catalog, d: Demand)
  {
    d.0.exact && (d.1 ==> d.0.schema) && if d.0.schema then d.0 in c.schemas else d.0 in c.extensions
  }

  predicate HasDemand(c: Catalog, r: Ref, d: Demand)
  {
    if r.schema then r in c.schemas && d.1 && d.0 in c.schemas[r].dependencies
    else r in c.extensions && if d.1 then d.0 in c.extensions[r].schemas else d.0 in c.extensions[r].dependencies
  }

  predicate Step(c: Catalog, a: Ref, b: Ref)
  {
    HasDemand(c, a, (b, true)) || HasDemand(c, a, (b, false))
  }

  ghost predicate Chain(c: Catalog, roots: seq<Ref>, p: seq<Ref>)
  {
    p != [] && p[0] in roots && forall i {:trigger p[i]} :: 0 <= i < |p| - 1 ==> Step(c, p[i], p[i + 1])
  }

  ghost predicate Reachable(c: Catalog, roots: seq<Ref>, r: Ref)
  {
    exists p :: Chain(c, roots, p) && p[|p| - 1] == r
  }

  /** What the closure has to resolve. */
  ghost predicate Demanded(c: Catalog, roots: seq<Ref>, d: Demand)
  {
    (d.0 in roots && !d.1) || exists r :: Reachable(c, roots, r) && HasDemand(c, r, d)
  }

  ghost predicate Resolves(c: Catalog, roots: seq<Ref>)
  {
    forall d :: Demanded(c, roots, d) ==> Available(c, d)
  }

  lemma DemandsAreReachable(c: Catalog, roots: seq<Ref>, d: Demand)
    requires Demanded(c, roots, d)
    ensures Reachable(c, roots, d.0)
  {
    if d.0 in roots {
      assert Chain(c, roots, [d.0]);
    } else {
      var r :| Reachable(c, roots, r) && HasDemand(c, r, d);
      var p :| Chain(c, roots, p) && p[|p| - 1] == r;
      assert d == (d.0, d.1);
      assert Step(c, r, d.0);
      assert Chain(c, roots, p + [d.0]);
      assert (p + [d.0])[|p|] == d.0;
    }
  }

  /** Everything reachable is in a set that holds the roots and is closed under steps. */
  lemma {:induction false} ClosedSetsHoldChains(c: Catalog, roots: seq<Ref>, closed: set<Ref>, p: seq<Ref>)
    requires Chain(c, roots, p)
    requires (forall r :: r in roots ==> r in closed) && forall a, b :: a in closed && Step(c, a, b) ==> b in closed
    ensures p[|p| - 1] in closed
    decreases |p|
  {
    if |p| > 1 {
      var front := p[..|p| - 1];
      assert Chain(c, roots, front);
      ClosedSetsHoldChains(c, roots, closed, front);
      assert Step(c, p[|p| - 2], p[|p| - 1]);
    }
  }

  // ----- The lock, declaratively ------------------------------------------------------------

  function ExtensionKey(p: ExtensionPin): Name { p.ref.key }
  function SchemaKey(p: SchemaPin): Name { p.ref.key }
  function RefKey(r: Ref): Name { r.key }
  function ModuleKey(m: Module): Name { m.key }

  predicate ExtensionPinned(c: Catalog, p: ExtensionPin)
  {
    !p.ref.schema && p.ref in c.extensions
      && p == ExtensionPin(p.ref, c.extensions[p.ref].version, c.extensions[p.ref].digest)
  }

  predicate SchemaPinned(c: Catalog, p: SchemaPin)
  {
    p.ref.schema && p.ref in c.schemas && p == SchemaPin(p.ref, c.schemas[p.ref].digest)
  }

  predicate Ships(c: Catalog, r: Ref, m: Module)
  {
    !r.schema && r in c.extensions && c.extensions[r].runtime == Some(m)
  }

  /** Pins exactly what is reachable, with the catalog's versions and digests, each list in
      key order. */
  ghost predicate IsLockOf(c: Catalog, roots: seq<Ref>, lock: Lock)
  {
    && lock.version == LOCK_VERSION
    && (exists s ::
         lock.roots == Appended(s) && SameElements(s, roots) && |s| == |roots| && StrictlyAscending(s, RefKey))
    && (exists s :: lock.extensions == Appended(s) && PinsExtensions(c, roots, s))
    && (exists s :: lock.schemas == Appended(s) && PinsSchemas(c, roots, s))
    && (exists s :: lock.modules == Appended(s) && PinsModules(c, roots, s))
  }

  ghost predicate PinsExtensions(c: Catalog, roots: seq<Ref>, s: seq<ExtensionPin>)
  {
    StrictlyAscending(s, ExtensionKey) && forall p :: p in s <==> ExtensionPinned(c, p) && Reachable(c, roots, p.ref)
  }

  ghost predicate PinsSchemas(c: Catalog, roots: seq<Ref>, s: seq<SchemaPin>)
  {
    StrictlyAscending(s, SchemaKey) && forall p :: p in s <==> SchemaPinned(c, p) && Reachable(c, roots, p.ref)
  }

  ghost predicate ReachableModule(c: Catalog, roots: seq<Ref>, m: Module)
  {
    exists r :: Reachable(c, roots, r) && Ships(c, r, m)
  }

  ghost predicate PinsModules(c: Catalog, roots: seq<Ref>, s: seq<Module>)
  {
    StrictlyAscending(s, ModuleKey) && forall m :: m in s <==> ReachableModule(c, roots, m)
  }

  /** There is at most one lock for a set of roots, whatever order they are given in. */
  lemma LocksAreUnique(c: Catalog, a: seq<Ref>, b: seq<Ref>, x: Lock, y: Lock)
    requires SameElements(a, b) && IsLockOf(c, a, x) && IsLockOf(c, b, y)
    ensures x == y
  {
    hide StrictlyAscending;
    SameReach(c, a, b);
    var ra :| x.roots == Appended(ra) && SameElements(ra, a) && |ra| == |a| && StrictlyAscending(ra, RefKey);
    var rb :| y.roots == Appended(rb) && SameElements(rb, b) && |rb| == |b| && StrictlyAscending(rb, RefKey);
    OneAscendingList(ra, rb, RefKey);
    var ea :| x.extensions == Appended(ea) && PinsExtensions(c, a, ea);
    var eb :| y.extensions == Appended(eb) && PinsExtensions(c, b, eb);
    OneAscendingList(ea, eb, ExtensionKey);
    var sa :| x.schemas == Appended(sa) && PinsSchemas(c, a, sa);
    var sb :| y.schemas == Appended(sb) && PinsSchemas(c, b, sb);
    OneAscendingList(sa, sb, SchemaKey);
    var ma :| x.modules == Appended(ma) && PinsModules(c, a, ma);
    var mb :| y.modules == Appended(mb) && PinsModules(c, b, mb);
    OneAscendingList(ma, mb, ModuleKey);
  }

  lemma SameReach(c: Catalog, a: seq<Ref>, b: seq<Ref>)
    requires SameElements(a, b)
    ensures forall r :: Reachable(c, a, r) <==> Reachable(c, b, r)
    ensures forall d :: Demanded(c, a, d) <==> Demanded(c, b, d)
    ensures forall m :: ReachableModule(c, a, m) <==> ReachableModule(c, b, m)
  {
    hide Step;
    forall p
      ensures Chain(c, a, p) <==> Chain(c, b, p)
    {
    }
  }
}
