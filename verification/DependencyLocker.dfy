/** The closure walk itself: seen sets, growing pin lists and recursion over references,
    proved to produce the one lock of its roots or to fail on a demand that cannot be
    met. */
module DependencyLocker {
  import opened Sums
  import opened Sets
  import opened KeyedLists
  import opened DependencyLock

  /** Keys tell the catalog's references apart. */
  ghost predicate KeysIdentify(c: Catalog)
  {
    forall a, b :: Known(c, a) && Known(c, b) && a.key == b.key ==> a == b
  }

  predicate Known(c: Catalog, r: Ref)
  {
    r in c.extensions || r in c.schemas
  }

  /** Seen references are catalog entries reached from the roots. */
  ghost predicate Sound(c: Catalog, roots: seq<Ref>, extensionsSeen: set<Ref>, schemasSeen: set<Ref>)
  {
    && (forall r :: r in extensionsSeen ==> !r.schema && r in c.extensions && Reachable(c, roots, r))
    && (forall r :: r in schemasSeen ==> r.schema && r in c.schemas && Reachable(c, roots, r))
  }

  predicate Met(c: Catalog, seen: set<Ref>, d: Demand)
  {
    Available(c, d) && d.0 in seen
  }

  /** Every demand of a seen reference that is not still being expanded is met. */
  ghost predicate Closed(c: Catalog, seen: set<Ref>, open: set<Ref>)
  {
    forall r, d :: r in seen && r !in open && HasDemand(c, r, d) ==> Met(c, seen, d)
  }

  ghost predicate ListsExtensions(c: Catalog, seen: set<Ref>, s: seq<ExtensionPin>)
  {
    DistinctKeys(s, ExtensionKey) && forall p :: p in s <==> ExtensionPinned(c, p) && p.ref in seen
  }

  ghost predicate ListsSchemas(c: Catalog, seen: set<Ref>, s: seq<SchemaPin>)
  {
    DistinctKeys(s, SchemaKey) && forall p :: p in s <==> SchemaPinned(c, p) && p.ref in seen
  }

  ghost predicate ListsModules(c: Catalog, extensionsSeen: set<Ref>, modulesSeen: set<Module>, s: seq<Module>)
  {
    && DistinctKeys(s, ModuleKey) && (forall m :: m in s <==> m in modulesSeen)
    && (forall m :: m in modulesSeen <==> exists r :: r in extensionsSeen && Ships(c, r, m))
  }

  lemma PinOneExtension(c: Catalog, seen: set<Ref>, s: seq<ExtensionPin>, ref: Ref)
    requires ListsExtensions(c, seen, s) && KeysIdentify(c) && !ref.schema && ref in c.extensions && ref !in seen
    ensures ListsExtensions(c, seen + {ref},
              s + [ExtensionPin(ref, c.extensions[ref].version, c.extensions[ref].digest)])
  {
    var pin := ExtensionPin(ref, c.extensions[ref].version, c.extensions[ref].digest);
    forall i | 0 <= i < |s|
      ensures ExtensionKey(s[i]) != ExtensionKey(pin)
    {
      assert s[i] in s;
    }
  }

  lemma PinOneSchema(c: Catalog, seen: set<Ref>, s: seq<SchemaPin>, ref: Ref)
    requires ListsSchemas(c, seen, s) && KeysIdentify(c) && ref.schema && ref in c.schemas && ref !in seen
    ensures ListsSchemas(c, seen + {ref}, s + [SchemaPin(ref, c.schemas[ref].digest)])
  {
    var pin := SchemaPin(ref, c.schemas[ref].digest);
    forall i | 0 <= i < |s|
      ensures SchemaKey(s[i]) != SchemaKey(pin)
    {
      assert s[i] in s;
    }
  }

  lemma PinOneModule(c: Catalog, seen: set<Ref>, modulesSeen: set<Module>, s: seq<Module>, ref: Ref)
    requires ListsModules(c, seen, modulesSeen, s) && !ref.schema && ref in c.extensions
    ensures var m := c.extensions[ref].runtime;
            if m.Some? && m.value !in modulesSeen
              then ListsModules(c, seen + {ref}, modulesSeen + {m.value}, s + [m.value])
            else ListsModules(c, seen + {ref}, modulesSeen, s)
  {
    var shipped := c.extensions[ref].runtime;
    forall m
      ensures (exists r :: r in seen + {ref} && Ships(c, r, m)) <==>
                (exists r :: r in seen && Ships(c, r, m)) || shipped == Some(m)
    {
      if exists r :: r in seen && Ships(c, r, m) {
        var r :| r in seen && Ships(c, r, m);
        assert r in seen + {ref};
      }
      if shipped == Some(m) {
        assert ref in seen + {ref} && Ships(c, ref, m);
      }
    }
    if shipped.Some? && shipped.value !in modulesSeen {
      forall i | 0 <= i < |s|
        ensures ModuleKey(s[i]) != ModuleKey(shipped.value)
      {
        assert s[i] in s;
      }
    }
  }

  ghost function SeenOf(extensionsSeen: set<Ref>, schemasSeen: set<Ref>): set<Ref>
  {
    extensionsSeen + schemasSeen
  }

  ghost function LeftOf(c: Catalog, seen: set<Ref>): nat
  {
    |c.extensions.Keys + c.schemas.Keys - seen|
  }

  /** Seeing one more reference. */
  lemma SeeOne(c: Catalog, a: set<Ref>, b: set<Ref>, ref: Ref)
    requires (ref in c.extensions || ref in c.schemas) && ref !in a && ref !in b
    ensures SeenOf(a + {ref}, b) == SeenOf(a, b) + {ref} && SeenOf(a, b + {ref}) == SeenOf(a, b) + {ref}
    ensures LeftOf(c, SeenOf(a, b) + {ref}) < LeftOf(c, SeenOf(a, b))
  {
    var u := c.extensions.Keys + c.schemas.Keys;
    Smaller(u - (a + b + {ref}), u - (a + b));
  }

  lemma UnseenHere(c: Catalog, roots: seq<Ref>, extensionsSeen: set<Ref>, schemasSeen: set<Ref>, ref: Ref)
    requires Sound(c, roots, extensionsSeen, schemasSeen) && Reachable(c, roots, ref)
    ensures ref.schema ==> ref !in extensionsSeen
    ensures !ref.schema ==> ref !in schemasSeen
    ensures ref.schema && ref in c.schemas ==> Sound(c, roots, extensionsSeen, schemasSeen + {ref})
    ensures !ref.schema && ref in c.extensions ==> Sound(c, roots, extensionsSeen + {ref}, schemasSeen)
  {
  }

  /** Seeing more references keeps met demands met. */
  lemma ClosedGrows(c: Catalog, seen: set<Ref>, open: set<Ref>, ref: Ref)
    requires Closed(c, seen, open)
    ensures Closed(c, seen + {ref}, open + {ref})
  {
  }

  lemma ClosedAfter(c: Catalog, seen: set<Ref>, open: set<Ref>, ref: Ref)
    requires Closed(c, seen, open + {ref}) && forall d :: HasDemand(c, ref, d) ==> Met(c, seen, d)
    ensures Closed(c, seen, open)
  {
  }

  class Locker {
    const c: Catalog
    const roots: seq<Ref>
    var extensionsSeen: set<Ref>
    var schemasSeen: set<Ref>
    var modulesSeen: set<Module>
    var extensions: seq<ExtensionPin>
    var schemas: seq<SchemaPin>
    var modules: seq<Module>

    ghost function Seen(): set<Ref>
      reads this
    {
      SeenOf(extensionsSeen, schemasSeen)
    }

    ghost function Left(): nat
      reads this
    {
      LeftOf(c, Seen())
    }

    ghost predicate Valid(open: set<Ref>)
      reads this
    {
      && KeysIdentify(c) && Sound(c, roots, extensionsSeen, schemasSeen) && Closed(c, Seen(), open)
      && ListsExtensions(c, extensionsSeen, extensions) && ListsSchemas(c, schemasSeen, schemas)
      && ListsModules(c, extensionsSeen, modulesSeen, modules)
    }

    constructor (c: Catalog, roots: seq<Ref>)
      requires KeysIdentify(c)
      ensures this.c == c && this.roots == roots && Valid({}) && Seen() == {}
    {
      this.c, this.roots := c, roots;
      extensionsSeen, schemasSeen, modulesSeen := {}, {}, {};
      extensions, schemas, modules := [], [], [];
    }

    /** Marks a schema and appends its pin. */
    method PinSchema(ref: Ref, ghost open: set<Ref>)
      requires Valid(open) && Reachable(c, roots, ref)
      requires ref.schema && ref in c.schemas && ref !in schemasSeen
      modifies this
      ensures Valid(open + {ref}) && Seen() == old(Seen()) + {ref} && Left() < old(Left()) && ref in schemasSeen
    {
      hide Closed, Reachable, KeysIdentify, Sound, ListsExtensions, ListsSchemas, ListsModules, SeenOf, LeftOf;
      PinOneSchema(c, schemasSeen, schemas, ref);
      ClosedGrows(c, Seen(), open, ref);
      UnseenHere(c, roots, extensionsSeen, schemasSeen, ref);
      SeeOne(c, extensionsSeen, schemasSeen, ref);
      schemasSeen := schemasSeen + {ref};
      schemas := schemas + [SchemaPin(ref, c.schemas[ref].digest)];
    }

    method PinExtension(ref: Ref, ghost open: set<Ref>)
      requires Valid(open) && Reachable(c, roots, ref)
      requires !ref.schema && ref in c.extensions && ref !in extensionsSeen
      modifies this
      ensures Valid(open + {ref}) && Seen() == old(Seen()) + {ref} && Left() < old(Left()) && ref in extensionsSeen
    {
      hide Closed, Reachable, KeysIdentify, Sound, ListsExtensions, ListsSchemas, ListsModules, SeenOf, LeftOf;
      PinOneExtension(c, extensionsSeen, extensions, ref);
      PinOneModule(c, extensionsSeen, modulesSeen, modules, ref);
      ClosedGrows(c, Seen(), open, ref);
      UnseenHere(c, roots, extensionsSeen, schemasSeen, ref);
      SeeOne(c, extensionsSeen, schemasSeen, ref);
      var d := c.extensions[ref];
      extensionsSeen := extensionsSeen + {ref};
      extensions := extensions + [ExtensionPin(ref, d.version, d.digest)];
      if d.runtime.Some? && d.runtime.value !in modulesSeen {
        modulesSeen, modules := modulesSeen + {d.runtime.value}, modules + [d.runtime.value];
      }
    }

    /** A schema and everything it refers to. A failure names a demand of the roots that
        the catalog cannot meet. */
    method AddSchema(ref: Ref, required: bool, ghost open: set<Ref>) returns (ok: bool)
      requires Valid(open) && Demanded(c, roots, (ref, required))
      requires required || ref.schema
      modifies this
      ensures ok ==> Valid(open) && old(Seen()) <= Seen() && Met(c, Seen(), (ref, required)) && Left() <= old(Left())
      ensures !ok ==> !Resolves(c, roots)
      decreases Left(), 0
    {
      hide Closed, Reachable, KeysIdentify, Sound, ListsExtensions, ListsSchemas, ListsModules;
      DemandsAreReachable(c, roots, (ref, required));
      if !ref.exact || !ref.schema {
        assert !Available(c, (ref, required));
        return false;
      }
      if ref in schemasSeen {
        SeenIsAvailable(c, roots, extensionsSeen, schemasSeen, ref);
        return true;
      }
      if ref !in c.schemas {
        assert !Available(c, (ref, required));
        return false;
      }
      PinSchema(ref, open);
      ok := AddSchemas(ref, c.schemas[ref].dependencies, open + {ref});
      if ok {
        ClosedAfter(c, Seen(), open, ref) by {
          forall d | HasDemand(c, ref, d)
            ensures Met(c, Seen(), d)
          {
            assert d == (d.0, true);
          }
        }
      }
    }

    /** Schemas that `owner` demands. */
    method AddSchemas(owner: Ref, refs: seq<Ref>, ghost open: set<Ref>) returns (ok: bool)
      requires Valid(open) && Reachable(c, roots, owner) && forall r :: r in refs ==> HasDemand(c, owner, (r, true))
      modifies this
      ensures ok ==> Valid(open) && old(Seen()) <= Seen() && Left() <= old(Left())
      ensures ok ==> forall r :: r in refs ==> Met(c, Seen(), (r, true))
      ensures !ok ==> !Resolves(c, roots)
      decreases Left(), 1
    {
      hide Closed, Reachable, KeysIdentify, Sound, ListsExtensions, ListsSchemas, ListsModules, Resolves, HasDemand,
           Available;
      for i := 0 to |refs|
        invariant Valid(open) && old(Seen()) <= Seen() && Left() <= old(Left())
        invariant forall k :: 0 <= k < i ==> Met(c, Seen(), (refs[k], true))
      {
        assert refs[i] in refs;
        ok := AddSchema(refs[i], true, open);
        if !ok { return; }
      }
      ok := true;
    }

    /** Any reference and everything it refers to. */
    method AddRef(ref: Ref, ghost open: set<Ref>) returns (ok: bool)
      requires Valid(open) && Demanded(c, roots, (ref, false))
      modifies this
      ensures ok ==> Valid(open) && old(Seen()) <= Seen() && Met(c, Seen(), (ref, false)) && Left() <= old(Left())
      ensures !ok ==> !Resolves(c, roots)
      decreases Left(), 2
    {
      hide Closed, Reachable, KeysIdentify, Sound, ListsExtensions, ListsSchemas, ListsModules;
      DemandsAreReachable(c, roots, (ref, false));
      if !ref.exact {
        assert !Available(c, (ref, false));
        return false;
      }
      if ref.schema {
        ok := AddSchema(ref, false, open);
        return;
      }
      if ref in extensionsSeen {
        SeenIsAvailable(c, roots, extensionsSeen, schemasSeen, ref);
        return true;
      }
      if ref !in c.extensions {
        assert !Available(c, (ref, false));
        return false;
      }
      PinExtension(ref, open);
      ok := AddSchemas(ref, c.extensions[ref].schemas, open + {ref});
      if !ok { return; }
      ghost var seen := Seen();
      ok := AddRefs(ref, c.extensions[ref].dependencies, open + {ref});
      if ok {
        ClosedAfter(c, Seen(), open, ref) by {
          forall d | HasDemand(c, ref, d)
            ensures Met(c, Seen(), d)
          {
            assert d == (d.0, d.1);
            assert d.1 ==> Met(c, seen, d);
          }
        }
      }
    }

    /** References that `owner` demands, of any kind. */
    method AddRefs(owner: Ref, refs: seq<Ref>, ghost open: set<Ref>) returns (ok: bool)
      requires Valid(open) && Reachable(c, roots, owner) && forall r :: r in refs ==> HasDemand(c, owner, (r, false))
      modifies this
      ensures ok ==> Valid(open) && old(Seen()) <= Seen() && Left() <= old(Left())
      ensures ok ==> forall r :: r in refs ==> Met(c, Seen(), (r, false))
      ensures !ok ==> !Resolves(c, roots)
      decreases Left(), 3
    {
      hide Closed, Reachable, KeysIdentify, Sound, ListsExtensions, ListsSchemas, ListsModules, Resolves, HasDemand,
           Available;
      for i := 0 to |refs|
        invariant Valid(open) && old(Seen()) <= Seen() && Left() <= old(Left())
        invariant forall k :: 0 <= k < i ==> Met(c, Seen(), (refs[k], false))
      {
        assert refs[i] in refs;
        ok := AddRef(refs[i], open);
        if !ok { return; }
      }
      ok := true;
    }

    /** The lock of the roots, once all of them were added. */
    method Assemble() returns (lock: Lock)
      requires Valid({}) && StrictlyAscending(roots, RefKey)
      requires forall k :: 0 <= k < |roots| ==> Met(c, Seen(), (roots[k], false))
      ensures IsLockOf(c, roots, lock) && Resolves(c, roots)
    {
      hide Resolves, KeysIdentify, StrictlyAscending, Closed, Sound, SeenOf, LeftOf, Reachable,
           ListsExtensions, ListsSchemas, ListsModules, PinsExtensions, PinsSchemas, PinsModules;
      SeenIsExactlyReachable(c, roots, extensionsSeen, schemasSeen);
      SortedPins(c, roots, extensionsSeen, schemasSeen, extensions);
      SortedSchemaPins(c, roots, extensionsSeen, schemasSeen, schemas);
      SortedModules(c, roots, extensionsSeen, schemasSeen, modulesSeen, modules);
      var e, h, m := SortBy(extensions, ExtensionKey), SortBy(schemas, SchemaKey), SortBy(modules, ModuleKey);
      lock := Lock(LOCK_VERSION, Appended(roots), Appended(e), Appended(h), Appended(m));
      Assembled(c, roots, roots, e, h, m);
    }
  }

  /** What was seen is available, as long as it is well-formed. */
  lemma SeenIsAvailable(c: Catalog, roots: seq<Ref>, extensionsSeen: set<Ref>, schemasSeen: set<Ref>, ref: Ref)
    requires Sound(c, roots, extensionsSeen, schemasSeen) && ref in extensionsSeen + schemasSeen && ref.exact
    ensures if ref.schema then ref in c.schemas else ref in c.extensions
  {
  }

  lemma SeenIsExactlyReachable(c: Catalog, roots: seq<Ref>, extensionsSeen: set<Ref>, schemasSeen: set<Ref>)
    requires Sound(c, roots, extensionsSeen, schemasSeen) && Closed(c, SeenOf(extensionsSeen, schemasSeen), {})
    requires forall r :: r in roots ==> Met(c, SeenOf(extensionsSeen, schemasSeen), (r, false))
    ensures forall r :: Reachable(c, roots, r) <==> r in SeenOf(extensionsSeen, schemasSeen)
    ensures Resolves(c, roots)
  {
    var seen := SeenOf(extensionsSeen, schemasSeen);
    forall a, b | a in seen && Step(c, a, b)
      ensures b in seen
    {
      var d := if HasDemand(c, a, (b, true)) then (b, true) else (b, false);
      assert Met(c, seen, d);
    }
    forall r | Reachable(c, roots, r)
      ensures r in seen
    {
      var p :| Chain(c, roots, p) && p[|p| - 1] == r;
      ClosedSetsHoldChains(c, roots, seen, p);
    }
    forall d | Demanded(c, roots, d)
      ensures Available(c, d)
    {
      if d.0 in roots && !d.1 {
        assert d == (d.0, false);
        assert Met(c, seen, (d.0, false));
      } else {
        var r :| Reachable(c, roots, r) && HasDemand(c, r, d);
        assert Met(c, seen, d);
      }
    }
  }

  lemma SortedPins(c: Catalog, roots: seq<Ref>, extensionsSeen: set<Ref>, schemasSeen: set<Ref>, s: seq<ExtensionPin>)
    requires ListsExtensions(c, extensionsSeen, s) && Sound(c, roots, extensionsSeen, schemasSeen)
    requires forall r :: Reachable(c, roots, r) <==> r in SeenOf(extensionsSeen, schemasSeen)
    ensures PinsExtensions(c, roots, SortBy(s, ExtensionKey))
  {
    hide Reachable;
    SortAscends(s, ExtensionKey);
    SortKeepsElements(s, ExtensionKey);
  }

  lemma SortedSchemaPins(c: Catalog, roots: seq<Ref>, extensionsSeen: set<Ref>, schemasSeen: set<Ref>,
                         s: seq<SchemaPin>)
    requires ListsSchemas(c, schemasSeen, s) && Sound(c, roots, extensionsSeen, schemasSeen)
    requires forall r :: Reachable(c, roots, r) <==> r in SeenOf(extensionsSeen, schemasSeen)
    ensures PinsSchemas(c, roots, SortBy(s, SchemaKey))
  {
    hide Reachable;
    SortAscends(s, SchemaKey);
    SortKeepsElements(s, SchemaKey);
  }

  lemma SortedModules(c: Catalog, roots: seq<Ref>, extensionsSeen: set<Ref>, schemasSeen: set<Ref>,
                      modulesSeen: set<Module>, s: seq<Module>)
    requires ListsModules(c, extensionsSeen, modulesSeen, s) && Sound(c, roots, extensionsSeen, schemasSeen)
    requires forall r :: Reachable(c, roots, r) <==> r in SeenOf(extensionsSeen, schemasSeen)
    ensures PinsModules(c, roots, SortBy(s, ModuleKey))
  {
    hide Reachable;
    SortAscends(s, ModuleKey);
    SortKeepsElements(s, ModuleKey);
    forall m
      ensures m in modulesSeen <==> ReachableModule(c, roots, m)
    {
      if m in modulesSeen {
        var r :| r in extensionsSeen && Ships(c, r, m);
        assert Reachable(c, roots, r);
      }
      if ReachableModule(c, roots, m) {
        var r :| Reachable(c, roots, r) && Ships(c, r, m);
        assert r in extensionsSeen;
      }
    }
  }

  lemma SortedRoots(roots: seq<Ref>)
    ensures var s := SortBy(roots, RefKey);
            && SameElements(s, roots) && |s| == |roots| && NonDescending(s, RefKey) && multiset(s) == multiset(roots)
  {
    SortKeepsElements(roots, RefKey);
    SortOrders(roots, RefKey);
  }

  /** References the catalog knows are told apart by their keys. */
  lemma KnownRootsAreTold(c: Catalog, seen: set<Ref>, s: seq<Ref>)
    requires KeysIdentify(c) && forall k :: 0 <= k < |s| ==> Met(c, seen, (s[k], false))
    ensures KeysTell(s, RefKey)
  {
    forall x, y | x in s && y in s && RefKey(x) == RefKey(y)
      ensures x == y
    {
      assert Known(c, x) && Known(c, y);
    }
  }

  lemma RepeatedRoot(roots: seq<Ref>, i: nat)
    requires 0 < i < |SortBy(roots, RefKey)| && SortBy(roots, RefKey)[i] == SortBy(roots, RefKey)[i - 1]
    ensures !NoRepeats(roots)
  {
    SortKeepsElements(roots, RefKey);
    if NoRepeats(roots) {
      RepeatsSurviveSorting(roots, SortBy(roots, RefKey));
    }
  }

  lemma AscendingRootsAreDistinct(roots: seq<Ref>)
    requires StrictlyAscending(SortBy(roots, RefKey), RefKey)
    ensures NoRepeats(roots)
  {
    var s := SortBy(roots, RefKey);
    SortKeepsElements(roots, RefKey);
    AscendingIsDistinct(s, RefKey);
    RepeatsSurviveSorting(s, roots);
  }

  lemma RootIsDemanded(c: Catalog, roots: seq<Ref>, i: nat)
    requires i < |roots|
    ensures Demanded(c, roots, (roots[i], false))
  {
  }

  /** Follows sorted roots, of which no two may be the same. */
  method LockSorted(c: Catalog, s: seq<Ref>) returns (lock: Option<Lock>)
    requires KeysIdentify(c) && NonDescending(s, RefKey)
    ensures lock.Some? ==> StrictlyAscending(s, RefKey) && Resolves(c, s) && IsLockOf(c, s, lock.value)
    ensures lock.None? ==> !Resolves(c, s) || exists i :: 0 < i < |s| && s[i] == s[i - 1]
  {
    hide Resolves, Demanded, NonDescending, KeysTell, KeysIdentify, StrictlyAscending, Closed, Sound, SeenOf, LeftOf,
         Reachable, ListsExtensions, ListsSchemas, ListsModules, IsLockOf;
    var locker := new Locker(c, s);
    for i := 0 to |s|
      invariant fresh(locker) && locker.c == c && locker.roots == s && locker.Valid({})
      invariant forall k :: 0 < k < i ==> s[k] != s[k - 1]
      invariant forall k :: 0 <= k < i ==> Met(c, locker.Seen(), (s[k], false))
    {
      if i > 0 && s[i] == s[i - 1] {
        return None;
      }
      RootIsDemanded(c, s, i);
      var ok := locker.AddRef(s[i], {});
      if !ok {
        return None;
      }
    }
    KnownRootsAreTold(c, locker.Seen(), s);
    NeighboursShowRepeats(s, RefKey);
    var assembled := locker.Assemble();
    lock := Some(assembled);
  }

  /** Succeeds exactly when no root repeats and everything demanded is available, and then
      gives the one lock of the roots. Cycles among references do no harm. */
  method LockDependencies(c: Catalog, roots: seq<Ref>) returns (lock: Option<Lock>)
    requires KeysIdentify(c)
    ensures lock.Some? <==> NoRepeats(roots) && Resolves(c, roots)
    ensures lock.Some? ==> IsLockOf(c, roots, lock.value)
  {
    hide NoRepeats, Resolves, Demanded, NonDescending, KeysTell, KeysIdentify, StrictlyAscending, Reachable, IsLockOf;
    var s := SortBy(roots, RefKey);
    SortedRoots(roots);
    SameReach(c, s, roots);
    SameDemands(c, s, roots);
    lock := LockSorted(c, s);
    if lock.Some? {
      AscendingRootsAreDistinct(roots);
      AssembledForAll(c, roots, s, lock.value);
    } else if Resolves(c, s) {
      var i :| 0 < i < |s| && s[i] == s[i - 1];
      RepeatedRoot(roots, i);
    }
  }

  lemma SameDemands(c: Catalog, a: seq<Ref>, b: seq<Ref>)
    requires forall d :: Demanded(c, a, d) <==> Demanded(c, b, d)
    ensures Resolves(c, a) <==> Resolves(c, b)
  {
    hide Demanded, Available;
  }

  lemma Assembled(c: Catalog, roots: seq<Ref>, s: seq<Ref>, extensions: seq<ExtensionPin>, schemas: seq<SchemaPin>,
                  modules: seq<Module>)
    requires SameElements(s, roots) && |s| == |roots| && StrictlyAscending(s, RefKey)
    requires PinsExtensions(c, s, extensions) && PinsSchemas(c, s, schemas) && PinsModules(c, s, modules)
    ensures IsLockOf(c, roots, Lock(LOCK_VERSION, Appended(s), Appended(extensions), Appended(schemas),
              Appended(modules)))
  {
    hide StrictlyAscending, Appended;
    SameReach(c, s, roots);
    hide Reachable;
    assert PinsExtensions(c, roots, extensions) && PinsSchemas(c, roots, schemas) && PinsModules(c, roots, modules);
  }

  /** A lock of the sorted roots is a lock of the roots. */
  lemma AssembledForAll(c: Catalog, roots: seq<Ref>, s: seq<Ref>, lock: Lock)
    requires SameElements(s, roots) && |s| == |roots| && IsLockOf(c, s, lock)
    ensures IsLockOf(c, roots, lock)
  {
    hide StrictlyAscending;
    SameReach(c, s, roots);
    hide Reachable;
    var r :| lock.roots == Appended(r) && SameElements(r, s) && |r| == |s| && StrictlyAscending(r, RefKey);
    assert SameElements(r, roots);
    var e :| lock.extensions == Appended(e) && PinsExtensions(c, s, e);
    assert PinsExtensions(c, roots, e);
    var h :| lock.schemas == Appended(h) && PinsSchemas(c, s, h);
    assert PinsSchemas(c, roots, h);
    var m :| lock.modules == Appended(m) && PinsModules(c, s, m);
    assert PinsModules(c, roots, m);
  }

  /** Accepts a lock exactly when it is the lock of its own roots, which makes them sorted,
      distinct and resolvable. */
  method ValidateDependencyLock(c: Catalog, lock: Lock) returns (ok: bool)
    requires KeysIdentify(c)
    ensures ok <==> IsLockOf(c, Elements(lock.roots), lock) && Resolves(c, Elements(lock.roots))
  {
    hide Resolves, KeysIdentify, PinsExtensions, PinsSchemas, PinsModules;
    var roots := Elements(lock.roots);
    if IsLockOf(c, roots, lock) {
      LockedRootsAreDistinct(c, lock);
    }
    if lock.version != LOCK_VERSION {
      return false;
    }
    var expected := LockDependencies(c, roots);
    ok := expected == Some(lock);
    if IsLockOf(c, roots, lock) && expected.Some? {
      LocksAreUnique(c, roots, roots, lock, expected.value);
    }
  }

  lemma LockedRootsAreDistinct(c: Catalog, lock: Lock)
    requires IsLockOf(c, Elements(lock.roots), lock)
    ensures NoRepeats(Elements(lock.roots)) && StrictlyAscending(Elements(lock.roots), RefKey)
  {
    hide PinsExtensions, PinsSchemas, PinsModules;
    var s :| lock.roots == Appended(s) && StrictlyAscending(s, RefKey);
    assert Elements(lock.roots) == s;
    AscendingIsDistinct(s, RefKey);
  }

  /** A lock produced for roots in any order is the lock of its own roots: it validates. */
  lemma ProducedLocksValidate(c: Catalog, roots: seq<Ref>, lock: Lock)
    requires IsLockOf(c, roots, lock) && Resolves(c, roots)
    ensures IsLockOf(c, Elements(lock.roots), lock) && Resolves(c, Elements(lock.roots))
  {
    hide StrictlyAscending;
    var s :| lock.roots == Appended(s) && SameElements(s, roots) && |s| == |roots| && StrictlyAscending(s, RefKey);
    assert Elements(lock.roots) == s;
    SameReach(c, s, roots);
    SameDemands(c, s, roots);
    hide Reachable, Resolves;
    var e :| lock.extensions == Appended(e) && PinsExtensions(c, roots, e);
    var h :| lock.schemas == Appended(h) && PinsSchemas(c, roots, h);
    var m :| lock.modules == Appended(m) && PinsModules(c, roots, m);
    Assembled(c, s, s, e, h, m);
  }

  /** Leaving out a pin of anything reachable, adding one of anything else, or changing a
      version or digest is rejected: an accepted lock pins exactly the reachable extensions,
      schemas and modules, as the catalog has them. */
  lemma OmittedOrAlteredPinsAreRejected(c: Catalog, lock: Lock)
    requires IsLockOf(c, Elements(lock.roots), lock)
    ensures var roots := Elements(lock.roots);
            && (forall p :: p in Elements(lock.extensions) <==> ExtensionPinned(c, p) && Reachable(c, roots, p.ref))
            && (forall p :: p in Elements(lock.schemas) <==> SchemaPinned(c, p) && Reachable(c, roots, p.ref))
            && (forall m :: m in Elements(lock.modules) <==> ReachableModule(c, roots, m))
    ensures NoRepeats(Elements(lock.extensions)) && NoRepeats(Elements(lock.schemas))
              && NoRepeats(Elements(lock.modules))
  {
    hide Reachable, ReachableModule, StrictlyAscending, NoRepeats;
    var roots := Elements(lock.roots);
    var e :| lock.extensions == Appended(e) && PinsExtensions(c, roots, e);
    var h :| lock.schemas == Appended(h) && PinsSchemas(c, roots, h);
    var m :| lock.modules == Appended(m) && PinsModules(c, roots, m);
    assert Elements(lock.extensions) == e && Elements(lock.schemas) == h && Elements(lock.modules) == m;
    AscendingIsDistinct(e, ExtensionKey);
    AscendingIsDistinct(h, SchemaKey);
    AscendingIsDistinct(m, ModuleKey);
  }

  /** In a catalog whose own references all resolve, only a root can fail. */
  lemma OnlyRootsCanFail(c: Catalog, roots: seq<Ref>)
    requires forall r, d :: HasDemand(c, r, d) ==> Available(c, d)
    ensures Resolves(c, roots) <==> forall r :: r in roots ==> Available(c, (r, false))
  {
    hide HasDemand, Available, Reachable;
    if Resolves(c, roots) {
      forall r | r in roots
        ensures Available(c, (r, false))
      {
        assert Demanded(c, roots, (r, false));
      }
    }
    forall d | Demanded(c, roots, d) && forall r :: r in roots ==> Available(c, (r, false))
      ensures Available(c, d)
    {
      assert d == (d.0, d.1);
    }
  }
}
