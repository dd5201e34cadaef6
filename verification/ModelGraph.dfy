/** The two callers of the three-colour walk: a snapshot's model graph and a
    configuration bundle's combos. */
module ModelGraph {
  import opened GraphWalk
  import opened Snapshots

  predicate MemberResolves(nodes: map<string, Node>, t: Tables, m: Member)
  {
    match m.kind
    case ModelMember => m.id in nodes
    case RouteMember => m.id in t.routes
    case RouteGroupMember => m.id in t.routeGroups || m.id in t.wireRoutes
    case Untyped => false
  }

  function SnapshotEdge(t: Tables, m: Member): Edge<string>
  {
    match m.kind
    case ModelMember => ToNode(m.id)
    case RouteMember => Leaf(m.id in t.routes)
    case RouteGroupMember => Leaf(m.id in t.routeGroups || m.id in t.wireRoutes)
    case Untyped => Leaf(false)
  }

  function SnapshotGraph(nodes: map<string, Node>, t: Tables): Graph<string>
  {
    map k | k in nodes ::
      seq(|nodes[k].members|, i requires 0 <= i < |nodes[k].members| => SnapshotEdge(t, nodes[k].members[i]))
  }

  ghost predicate MembersResolve(nodes: map<string, Node>, t: Tables)
  {
    forall k, m :: k in nodes && m in nodes[k].members ==> MemberResolves(nodes, t, m)
  }

  lemma SnapshotEdgesAreMembers(nodes: map<string, Node>, t: Tables)
    ensures Resolved(SnapshotGraph(nodes, t)) <==> MembersResolve(nodes, t)
  {
    var g := SnapshotGraph(nodes, t);
    if Resolved(g) {
      forall k, m | k in nodes && m in nodes[k].members
        ensures MemberResolves(nodes, t, m)
      {
        var i :| 0 <= i < |nodes[k].members| && nodes[k].members[i] == m;
        assert EdgeResolved(g, g[k][i]);
      }
    }
    if MembersResolve(nodes, t) {
      forall k, e | k in g && e in g[k]
        ensures EdgeResolved(g, e)
      {
        var i :| 0 <= i < |g[k]| && g[k][i] == e;
        assert MemberResolves(nodes, t, nodes[k].members[i]);
      }
    }
  }

  lemma SameModelEdges(nodes: map<string, Node>, t: Tables, u: string, v: string)
    ensures HasEdge(SnapshotGraph(nodes, t), u, v) <==> HasEdge(References(nodes), u, v)
  {
    if u in nodes {
      var a, b := SnapshotGraph(nodes, t)[u], References(nodes)[u];
      forall i | 0 <= i < |a|
        ensures a[i] == ToNode(v) <==> b[i] == ToNode(v)
      {
      }
    }
  }

  lemma SamePaths(nodes: map<string, Node>, t: Tables, p: seq<string>)
    ensures IsPath(SnapshotGraph(nodes, t), p) <==> IsPath(References(nodes), p)
  {
    forall i | 0 <= i < |p| - 1
      ensures HasEdge(SnapshotGraph(nodes, t), p[i], p[i + 1]) <==> HasEdge(References(nodes), p[i], p[i + 1])
    {
      SameModelEdges(nodes, t, p[i], p[i + 1]);
    }
  }

  lemma SameCycles(nodes: map<string, Node>, t: Tables)
    ensures Cyclic(SnapshotGraph(nodes, t)) <==> Cyclic(References(nodes))
  {
    forall p: seq<string>
      ensures IsPath(SnapshotGraph(nodes, t), p) <==> IsPath(References(nodes), p)
    {
      SamePaths(nodes, t, p);
    }
  }

  /** A snapshot is accepted exactly when every member names something that exists
      and no chain of model references returns to its start. */
  method ValidateModelGraph(nodes: map<string, Node>, t: Tables) returns (ok: bool)
    ensures ok <==> MembersResolve(nodes, t) && !Cyclic(References(nodes))
  {
    SnapshotEdgesAreMembers(nodes, t);
    SameCycles(nodes, t);
    var walker := new Walker(SnapshotGraph(nodes, t));
    ok := walker.Validate();
  }

  /** On an accepted snapshot keyed by node ID, neither error branch of the
      recursion can be reached. */
  lemma AcceptedSnapshotsRunWithoutGraphErrors(nodes: map<string, Node>, t: Tables)
    requires MembersResolve(nodes, t) && !Cyclic(References(nodes))
    requires KeyedById(nodes)
    ensures Resolved(References(nodes)) && forall root :: IdsTellPathsApart(nodes, root)
  {
    forall root
      ensures IdsTellPathsApart(nodes, root)
    {
      KeyedByIdSuffices(nodes, root);
    }
    var g := References(nodes);
    forall k, e | k in g && e in g[k]
      ensures EdgeResolved(g, e)
    {
      var i :| 0 <= i < |g[k]| && g[k][i] == e;
      assert MemberResolves(nodes, t, nodes[k].members[i]);
    }
  }

  // ----- Combos of a configuration bundle -------------------------------------------

  datatype ComboMember = ComboReference(id: string) | PhysicalReference(id: string)

  type Combos = map<string, seq<ComboMember>>

  function ComboEdge(m: ComboMember): Edge<string>
  {
    if m.ComboReference? then ToNode(m.id) else Leaf(true)
  }

  function ComboGraph(combos: Combos): Graph<string>
  {
    map k | k in combos :: seq(|combos[k]|, i requires 0 <= i < |combos[k]| => ComboEdge(combos[k][i]))
  }

  ghost predicate CombosResolve(combos: Combos)
  {
    forall k, id :: k in combos && ComboReference(id) in combos[k] ==> id in combos
  }

  lemma ComboEdgesAreMembers(combos: Combos)
    ensures Resolved(ComboGraph(combos)) <==> CombosResolve(combos)
  {
    var g := ComboGraph(combos);
    if Resolved(g) {
      forall k, id | k in combos && ComboReference(id) in combos[k]
        ensures id in combos
      {
        var i :| 0 <= i < |combos[k]| && combos[k][i] == ComboReference(id);
        assert EdgeResolved(g, g[k][i]);
      }
    }
    if CombosResolve(combos) {
      forall k, e | k in g && e in g[k]
        ensures EdgeResolved(g, e)
      {
        var i :| 0 <= i < |g[k]| && g[k][i] == e;
        assert combos[k][i].ComboReference? ==> ComboReference(combos[k][i].id) in combos[k];
      }
    }
  }

  /** Combo A refers to combo B. */
  predicate RefersTo(combos: Combos, a: string, b: string)
  {
    a in combos && ComboReference(b) in combos[a]
  }

  ghost predicate ReferenceLoop(combos: Combos, p: seq<string>)
  {
    |p| >= 2 && p[0] == p[|p| - 1] && forall i {:trigger p[i]} :: 0 <= i < |p| - 1 ==> RefersTo(combos, p[i], p[i + 1])
  }

  lemma ComboEdgesAreReferences(combos: Combos, a: string, b: string)
    ensures HasEdge(ComboGraph(combos), a, b) <==> RefersTo(combos, a, b)
  {
    if a in combos {
      var es := ComboGraph(combos)[a];
      assert forall i :: 0 <= i < |es| ==> (es[i] == ToNode(b) <==> combos[a][i] == ComboReference(b));
    }
  }

  lemma LoopsAreCycles(combos: Combos)
    ensures Cyclic(ComboGraph(combos)) <==> exists p :: ReferenceLoop(combos, p)
  {
    forall a, b
      ensures HasEdge(ComboGraph(combos), a, b) <==> RefersTo(combos, a, b)
    {
      ComboEdgesAreReferences(combos, a, b);
    }
    if p :| IsPath(ComboGraph(combos), p) && |p| >= 2 && p[0] == p[|p| - 1] {
      assert ReferenceLoop(combos, p);
    }
    if p :| ReferenceLoop(combos, p) {
      assert IsPath(ComboGraph(combos), p);
    }
  }

  /** The same walk accepts a bundle's combos exactly when every combo reference
      resolves and none leads back to its start. */
  method ValidateCombos(combos: Combos) returns (ok: bool)
    ensures ok <==> CombosResolve(combos) && forall p :: !ReferenceLoop(combos, p)
  {
    ComboEdgesAreMembers(combos);
    LoopsAreCycles(combos);
    var walker := new Walker(ComboGraph(combos));
    ok := walker.Validate();
  }

  // ----- Dependencies of the extension catalog ----------------------------------------

  /** What each registered extension depends on: its dependencies, then its artifact
      interpreters. */
  type Dependencies = map<string, seq<string>>

  function DependencyGraph(deps: Dependencies): Graph<string>
  {
    map k | k in deps :: seq(|deps[k]|, i requires 0 <= i < |deps[k]| => ToNode(deps[k][i]))
  }

  predicate DependsOn(deps: Dependencies, a: string, b: string)
  {
    a in deps && b in deps[a]
  }

  ghost predicate DependencyLoop(deps: Dependencies, p: seq<string>)
  {
    |p| >= 2 && p[0] == p[|p| - 1] && forall i {:trigger p[i]} :: 0 <= i < |p| - 1 ==> DependsOn(deps, p[i], p[i + 1])
  }

  lemma EdgesAreDependencies(deps: Dependencies, a: string, b: string)
    ensures HasEdge(DependencyGraph(deps), a, b) <==> DependsOn(deps, a, b)
  {
    if a in deps {
      var es := DependencyGraph(deps)[a];
      assert forall i :: 0 <= i < |es| ==> (es[i] == ToNode(b) <==> deps[a][i] == b);
    }
  }

  lemma LoopsOfDependencies(deps: Dependencies)
    ensures Cyclic(DependencyGraph(deps)) <==> exists p :: DependencyLoop(deps, p)
  {
    forall a, b
      ensures HasEdge(DependencyGraph(deps), a, b) <==> DependsOn(deps, a, b)
    {
      EdgesAreDependencies(deps, a, b);
    }
    if p :| IsPath(DependencyGraph(deps), p) && |p| >= 2 && p[0] == p[|p| - 1] {
      assert DependencyLoop(deps, p);
    }
    if p :| DependencyLoop(deps, p) {
      assert IsPath(DependencyGraph(deps), p);
    }
  }

  /** Once every reference of the catalog was found registered, the walk accepts it
      exactly when no chain of dependencies returns to its start. */
  method ValidateDependencies(deps: Dependencies) returns (ok: bool)
    requires forall a, b :: DependsOn(deps, a, b) ==> b in deps
    ensures ok <==> forall p :: !DependencyLoop(deps, p)
  {
    LoopsOfDependencies(deps);
    var g := DependencyGraph(deps);
    forall u, e | u in g && e in g[u]
      ensures EdgeResolved(g, e)
    {
      assert DependsOn(deps, u, e.id);
    }
    var walker := new Walker(g);
    ok := walker.Validate();
  }
}
