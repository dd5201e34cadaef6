/** The three-colour walk that validates a reference graph. The model graph and the
    bundle's combo graph are both checked by it. */
module GraphWalk {
  import opened Sets

  /** An outgoing reference: to another node, or to a leaf that does or does not exist. */
  datatype Edge<T> = ToNode(id: T) | Leaf(resolved: bool)

  type Graph<T> = map<T, seq<Edge<T>>>

  predicate HasEdge<T(==)>(g: Graph<T>, u: T, v: T)
  {
    u in g && ToNode(v) in g[u]
  }

  /** Every reference names something that exists. */
  ghost predicate Resolved<T>(g: Graph<T>)
  {
    forall u, e :: u in g && e in g[u] ==> EdgeResolved(g, e)
  }

  predicate EdgeResolved<T(==)>(g: Graph<T>, e: Edge<T>)
  {
    match e
    case ToNode(v) => v in g
    case Leaf(resolved) => resolved
  }

  ghost predicate IsPath<T(!new)>(g: Graph<T>, p: seq<T>)
  {
    forall i {:trigger p[i]} :: 0 <= i < |p| - 1 ==> HasEdge(g, p[i], p[i + 1])
  }

  ghost predicate Cyclic<T(!new)>(g: Graph<T>)
  {
    exists p :: IsPath(g, p) && |p| >= 2 && p[0] == p[|p| - 1]
  }

  ghost predicate Sound<T(!new)>(g: Graph<T>)
  {
    Resolved(g) && !Cyclic(g)
  }

  /** Nodes in finishing order: each one's references finished before it. */
  ghost predicate Finished<T>(g: Graph<T>, order: seq<T>)
  {
    && (forall i :: 0 <= i < |order| ==> order[i] in g)
    && (forall i, e :: 0 <= i < |order| && e in g[order[i]] ==> EdgeDone(Elements(order[..i]), e))
  }

  ghost function Elements<T>(s: seq<T>): set<T>
  {
    set u | u in s
  }

  predicate EdgeDone<T(==)>(done: set<T>, e: Edge<T>)
  {
    match e
    case ToNode(v) => v in done
    case Leaf(resolved) => resolved
  }

  lemma {:induction false} PathDescends<T(!new)>(g: Graph<T>, order: seq<T>, p: seq<T>, i: nat) returns (j: nat)
    requires Finished(g, order) && NoRepeats(order)
    requires IsPath(g, p) && p != [] && i < |order| && p[0] == order[i]
    ensures j <= i && order[j] == p[|p| - 1] && (|p| >= 2 ==> j < i)
    decreases |p|
  {
    if |p| == 1 {
      return i;
    }
    assert HasEdge(g, p[0], p[1]);
    assert EdgeDone(Elements(order[..i]), ToNode(p[1]));
    var k :| 0 <= k < i && order[k] == p[1];
    assert IsPath(g, p[1..]) by {
      forall n | 0 <= n < |p[1..]| - 1
        ensures HasEdge(g, p[1..][n], p[1..][n + 1])
      {
        assert HasEdge(g, p[n + 1], p[n + 2]);
      }
    }
    j := PathDescends(g, order, p[1..], k);
  }

  /** A finishing order of all nodes leaves no room for a cycle. */
  lemma FinishedIsSound<T(!new)>(g: Graph<T>, order: seq<T>)
    requires Finished(g, order) && NoRepeats(order) && forall u :: u in g ==> u in order
    ensures Sound(g)
  {
    forall u, e | u in g && e in g[u]
      ensures EdgeResolved(g, e)
    {
      var i :| 0 <= i < |order| && order[i] == u;
      assert EdgeDone(Elements(order[..i]), e);
    }
    forall p | IsPath(g, p) && |p| >= 2
      ensures p[0] != p[|p| - 1]
    {
      assert HasEdge(g, p[0], p[1]);
      var i :| 0 <= i < |order| && order[i] == p[0];
      var j := PathDescends(g, order, p, i);
    }
  }

  lemma PathExtends<T(!new)>(g: Graph<T>, p: seq<T>, v: T)
    requires IsPath(g, p) && (p != [] ==> HasEdge(g, p[|p| - 1], v))
    ensures IsPath(g, p + [v])
  {
    forall i | 0 <= i < |p + [v]| - 1
      ensures HasEdge(g, (p + [v])[i], (p + [v])[i + 1])
    {
      if i < |p| - 1 {
        assert HasEdge(g, p[i], p[i + 1]);
      }
    }
  }

  /** Meeting a node of the current path again is a cycle. */
  lemma MeetingThePathIsACycle<T(!new)>(g: Graph<T>, p: seq<T>, v: T)
    requires IsPath(g, p) && p != [] && HasEdge(g, p[|p| - 1], v) && v in p
    ensures Cyclic(g)
  {
    var i :| 0 <= i < |p| && p[i] == v;
    PathExtends(g, p, v);
    var c := (p + [v])[i..];
    forall n | 0 <= n < |c| - 1
      ensures HasEdge(g, c[n], c[n + 1])
    {
      assert HasEdge(g, (p + [v])[i + n], (p + [v])[i + n + 1]);
    }
    assert IsPath(g, c) && |c| >= 2 && c[0] == c[|c| - 1];
  }

  lemma SubPath<T(!new)>(g: Graph<T>, p: seq<T>, i: nat, j: nat)
    requires IsPath(g, p) && i <= j <= |p|
    ensures IsPath(g, p[i..j])
  {
    hide HasEdge;
    var c := p[i..j];
    forall n | 0 <= n < |c| - 1
      ensures HasEdge(g, c[n], c[n + 1])
    {
      assert HasEdge(g, p[i + n], p[i + n + 1]);
    }
  }

  /** On an acyclic graph no path repeats a node. */
  lemma AcyclicPathsAreSimple<T(!new)>(g: Graph<T>, p: seq<T>)
    requires IsPath(g, p) && !Cyclic(g)
    ensures NoRepeats(p)
  {
    hide IsPath;
    forall i, j | 0 <= i < j < |p|
      ensures p[i] != p[j]
    {
      var c := p[i..j + 1];
      SubPath(g, p, i, j + 1);
      assert |c| >= 2 && c[0] == p[i] && c[|c| - 1] == p[j];
    }
  }

  /** Finishing a node whose references are all done. */
  lemma FinishNode<T>(g: Graph<T>, order: seq<T>, id: T)
    requires Finished(g, order) && NoRepeats(order) && id in g && id !in order
    requires forall e :: e in g[id] ==> EdgeDone(Elements(order), e)
    ensures Finished(g, order + [id]) && NoRepeats(order + [id])
    ensures Elements(order + [id]) == Elements(order) + {id}
  {
    var next := order + [id];
    forall i, e | 0 <= i < |next| && e in g[next[i]]
      ensures EdgeDone(Elements(next[..i]), e)
    {
      assert next[..i] == order[..i];
      if i == |order| {
        assert order[..i] == order;
      }
    }
  }

  lemma Done<T>(small: set<T>, big: set<T>, e: Edge<T>)
    requires small <= big && EdgeDone(small, e)
    ensures EdgeDone(big, e)
  {
  }

  lemma BrokenReference<T(!new)>(g: Graph<T>, u: T, e: Edge<T>)
    requires u in g && e in g[u] && !EdgeResolved(g, e)
    ensures !Sound(g)
  {
  }

  lemma InElements<T>(s: seq<T>, u: T)
    ensures u in Elements(s) <==> u in s
  {
  }

  lemma ElementsGrow<T>(s: seq<T>, u: T)
    ensures Elements(s + [u]) == Elements(s) + {u}
  {
    forall v
      ensures v in Elements(s + [u]) <==> v in Elements(s) + {u}
    {
      assert v in s + [u] <==> v in s || v == u;
    }
  }

  lemma EdgeIsKnown<T(!new)>(g: Graph<T>, path: seq<T>, id: T)
    requires if path == [] then id in g else HasEdge(g, path[|path| - 1], id)
    ensures path == [] ==> id in g
    ensures path != [] ==> path[|path| - 1] in g
  {
  }

  class Walker<T(==,!new)> {
    const g: Graph<T>
    var visiting: set<T>
    var visited: set<T>
    ghost var order: seq<T>

    ghost predicate Valid()
      reads this
    {
      Finished(g, order) && NoRepeats(order) && visited == Elements(order) && visited !! visiting
    }

    constructor (g: Graph<T>)
      ensures this.g == g && Valid() && visiting == {} && visited == {}
    {
      this.g := g;
      visiting, visited, order := {}, {}, [];
    }

    /** Visits `id`, reached along `path`; `path` holds exactly the nodes being
        visited. A failure is always evidence against the graph. */
    method Visit(id: T, ghost path: seq<T>) returns (ok: bool)
      requires Valid() && visiting == Elements(path) && visiting <= g.Keys
      requires IsPath(g, path) && (if path == [] then id in g else HasEdge(g, path[|path| - 1], id))
      modifies this
      ensures ok ==> Valid() && id in visited && old(visited) <= visited && visiting == old(visiting)
      ensures !ok ==> !Sound(g)
      decreases |g.Keys - visiting|, 0
    {
      hide Finished, NoRepeats, IsPath, Sound, Cyclic, EdgeDone, EdgeResolved, Elements, HasEdge;
      EdgeIsKnown(g, path, id);
      InElements(path, id);
      if id in visiting {
        MeetingThePathIsACycle(g, path, id);
        CyclicIsUnsound(g);
        return false;
      }
      if id in visited {
        return true;
      }
      if id !in g {
        UnknownNodeIsUnsound(g, path[|path| - 1], id);
        return false;
      }
      PathExtends(g, path, id);
      ElementsGrow(path, id);
      Smaller(g.Keys - (visiting + {id}), g.Keys - visiting);
      visiting := visiting + {id};
      ok := FollowAll(id, path + [id]);
      if ok {
        InElements(order, id);
        FinishNode(g, order, id);
        visiting, visited, order := visiting - {id}, visited + {id}, order + [id];
      }
    }

    /** The references of the node being visited, in order. */
    method FollowAll(id: T, ghost path: seq<T>) returns (ok: bool)
      requires Valid() && visiting == Elements(path) && visiting <= g.Keys
      requires IsPath(g, path) && path != [] && path[|path| - 1] == id && id in g
      modifies this
      ensures ok ==> Valid() && old(visited) <= visited && visiting == old(visiting)
      ensures ok ==> forall e :: e in g[id] ==> EdgeDone(visited, e)
      ensures !ok ==> !Sound(g)
      decreases |g.Keys - visiting|, 2
    {
      hide Finished, NoRepeats, IsPath, Sound, Cyclic, EdgeDone;
      var es := g[id];
      for i := 0 to |es|
        invariant Valid() && visiting == old(visiting) && old(visited) <= visited
        invariant forall k :: 0 <= k < i ==> EdgeDone(visited, es[k])
      {
        ghost var earlier := visited;
        ok := Follow(id, es[i], path);
        if !ok { return; }
        forall k | 0 <= k < i
          ensures EdgeDone(visited, es[k])
        {
          Done(earlier, visited, es[k]);
        }
      }
      ok := true;
    }

    /** One reference of the node being visited. */
    method Follow(id: T, e: Edge<T>, ghost path: seq<T>) returns (ok: bool)
      requires Valid() && visiting == Elements(path) && visiting <= g.Keys
      requires IsPath(g, path) && path != [] && path[|path| - 1] == id && id in g && e in g[id]
      modifies this
      ensures ok ==> Valid() && EdgeDone(visited, e) && old(visited) <= visited && visiting == old(visiting)
      ensures !ok ==> !Sound(g)
      decreases |g.Keys - visiting|, 1
    {
      hide Finished, NoRepeats, IsPath, Sound, Cyclic;
      match e
      case ToNode(v) =>
        ok := Visit(v, path);
      case Leaf(resolved) =>
        if !resolved {
          BrokenReference(g, id, e);
        }
        ok := resolved;
    }

    /** Walks every node, in any order. */
    method Validate() returns (ok: bool)
      requires Valid() && visiting == {} && visited == {}
      modifies this
      ensures ok <==> Sound(g)
    {
      hide Finished, NoRepeats, Sound;
      var todo := g.Keys;
      while todo != {}
        invariant Valid() && visiting == {} && todo <= g.Keys && g.Keys - todo <= visited
        decreases |todo|
      {
        var id :| id in todo;
        todo := todo - {id};
        EmptyPath(g);
        ok := Visit(id, []);
        if !ok { return; }
      }
      assert forall u :: u in g ==> u in Elements(order);
      FinishedIsSound(g, order);
      ok := true;
    }
  }

  lemma EmptyPath<T(!new)>(g: Graph<T>)
    ensures IsPath(g, [])
  {
  }

  lemma CyclicIsUnsound<T(!new)>(g: Graph<T>)
    requires Cyclic(g)
    ensures !Sound(g)
  {
  }

  lemma UnknownNodeIsUnsound<T(!new)>(g: Graph<T>, u: T, v: T)
    requires HasEdge(g, u, v) && v !in g
    ensures !Sound(g)
  {
    BrokenReference(g, u, ToNode(v));
  }
}
