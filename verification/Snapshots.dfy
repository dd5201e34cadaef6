/** A published snapshot: model nodes, their members and the route tables. It says which
    paths the recursion over it can take, when a path can meet a node ID twice, and how
    many requests a candidate can get from one run. */
module Snapshots {
  import opened Replay
  import Strategies
  import GraphWalk
  import Sets

  type Member = Strategies.Member

  /** How a node plans: by a built-in strategy, or by one an extension brings. */
  datatype Planning = BuiltIn(strategy: Strategies.Strategy) | Extension

  datatype Node = Node(id: string, physical: bool, members: seq<Member>, planning: Planning, allowCompatible: bool,
    allowDynamic: bool)

  /** A route; `serves` says that it is enabled and bound to the operation. */
  datatype Candidate = Candidate(id: string, serves: bool, recoverByRefresh: bool)

  datatype Tables = Tables(routes: map<string, Candidate>, routeGroups: map<string, seq<string>>,
    wireRoutes: map<string, seq<string>>)

  predicate PhysicalSourceAllowed(node: Node, source: Member)
  {
    match source.fidelity
    case Exact => true
    case Alias => source.hasEvidence
    case Compatible => node.allowCompatible
    case Dynamic => node.allowDynamic
    case Unset => false
  }

  // ----- Routes of a member -----------------------------------------------------------

  /** The first occurrences of known routes. */
  function KnownRoutes(t: Tables, ids: seq<string>): seq<Candidate>
  {
    if ids == [] then []
    else
      var front, id := ids[..|ids| - 1], ids[|ids| - 1];
      KnownRoutes(t, front) + if id in front || id !in t.routes then [] else [t.routes[id]]
  }

  function GroupIds(t: Tables, id: string): seq<string>
  {
    var own := if id in t.routeGroups then t.routeGroups[id] else [];
    if own == [] && id in t.wireRoutes then t.wireRoutes[id] else own
  }

  function Resolve(t: Tables, m: Member): seq<Candidate>
  {
    match m.kind
    case RouteMember => if m.id in t.routes then [t.routes[m.id]] else []
    case RouteGroupMember => KnownRoutes(t, GroupIds(t, m.id))
    case _ => []
  }

  method ResolveRouteMember(t: Tables, m: Member) returns (found: seq<Candidate>)
    ensures found == Resolve(t, m)
  {
    match m.kind {
      case RouteMember =>
        found := if m.id in t.routes then [t.routes[m.id]] else [];
        return;
      case RouteGroupMember =>
      case _ =>
        return [];
    }
    var ids := GroupIds(t, m.id);
    var seen: set<string> := {};
    found := [];
    for i := 0 to |ids|
      invariant seen == set id | id in ids[..i]
      invariant found == KnownRoutes(t, ids[..i])
    {
      assert ids[..i + 1][..i] == ids[..i];
      if ids[i] !in seen {
        seen := seen + {ids[i]};
        if ids[i] in t.routes {
          found := found + [t.routes[ids[i]]];
        }
      }
    }
    assert ids[..|ids|] == ids;
  }

  predicate RoutesKeyedById(t: Tables)
  {
    forall k :: k in t.routes ==> t.routes[k].id == k
  }

  /** What some candidates come to, each weighed by `w`. */
  function Weigh(cs: seq<Candidate>, w: Candidate -> nat): nat
  {
    if cs == [] then 0 else Weigh(cs[..|cs| - 1], w) + w(cs[|cs| - 1])
  }

  lemma {:induction false} WeighConcat(a: seq<Candidate>, b: seq<Candidate>, w: Candidate -> nat)
    ensures Weigh(a + b, w) == Weigh(a, w) + Weigh(b, w)
    decreases |b|
  {
    if b == [] {
      assert a + b == a;
    } else {
      assert (a + b)[..|a + b| - 1] == a + b[..|b| - 1];
      WeighConcat(a, b[..|b| - 1], w);
    }
  }

  lemma TakenOut<T>(a: seq<T>, c: T, b: seq<T>, front: seq<T>)
    requires multiset(front + [c]) <= multiset(a + ([c] + b))
    ensures multiset(front) <= multiset(a + b)
  {
    assert multiset(front + [c]) == multiset(front) + multiset{c};
    assert multiset(a + ([c] + b)) == multiset(a) + (multiset{c} + multiset(b));
    var f, l, r := multiset(front), multiset(a), multiset(b);
    assert multiset(a + b) == l + r;
    assert f + multiset{c} <= (l + r) + multiset{c};
    forall x
      ensures f[x] <= (l + r)[x]
    {
      assert (f + multiset{c})[x] <= ((l + r) + multiset{c})[x];
    }
  }

  /** Leaving candidates out or reordering them never weighs more. */
  lemma {:induction false} FewerWeighLess(some: seq<Candidate>, all: seq<Candidate>, w: Candidate -> nat)
    requires multiset(some) <= multiset(all)
    ensures Weigh(some, w) <= Weigh(all, w)
    decreases |some|
  {
    if some != [] {
      var front, c := some[..|some| - 1], some[|some| - 1];
      assert some == front + [c];
      assert c in multiset(some);
      assert c in multiset(all);
      var i :| 0 <= i < |all| && all[i] == c;
      assert all == all[..i] + ([c] + all[i + 1..]);
      TakenOut(all[..i], c, all[i + 1..], front);
      FewerWeighLess(front, all[..i] + all[i + 1..], w);
      WeighConcat(all[..i], all[i + 1..], w);
      WeighConcat(all[..i], [c] + all[i + 1..], w);
      WeighConcat([c], all[i + 1..], w);
    }
  }

  // ----- The graph the recursion follows ----------------------------------------------

  function Reference(m: Member): GraphWalk.Edge<string>
  {
    if m.kind == Strategies.ModelMember then GraphWalk.ToNode(m.id) else GraphWalk.Leaf(true)
  }

  /** The model references of a snapshot; route members end the recursion. */
  function References(nodes: map<string, Node>): GraphWalk.Graph<string>
  {
    map k | k in nodes ::
      seq(|nodes[k].members|, i requires 0 <= i < |nodes[k].members| => Reference(nodes[k].members[i]))
  }

  function NodeIds(nodes: map<string, Node>): set<string>
  {
    set k | k in nodes :: nodes[k].id
  }

  ghost function PathIds(nodes: map<string, Node>, path: seq<string>): set<string>
  {
    set i | 0 <= i < |path| && path[i] in nodes :: nodes[path[i]].id
  }

  ghost predicate OnPath(nodes: map<string, Node>, path: seq<string>, stack: set<string>)
  {
    GraphWalk.IsPath(References(nodes), path) && stack == PathIds(nodes, path) && forall k :: k in path ==> k in nodes
  }

  /** No path from the root goes through two nodes that carry the same ID. */
  ghost predicate IdsTellPathsApart(nodes: map<string, Node>, root: string)
  {
    forall path ::
      GraphWalk.IsPath(References(nodes), path) && path != [] && path[0] == root ==> IdsDistinct(nodes, path)
  }

  ghost predicate IdsDistinct(nodes: map<string, Node>, path: seq<string>)
  {
    forall i, j ::
      0 <= i < j < |path| && path[i] in nodes && path[j] in nodes ==> nodes[path[i]].id != nodes[path[j]].id
  }

  lemma MemberIsAnEdge(nodes: map<string, Node>, k: string, m: Member)
    requires k in nodes && m in nodes[k].members && m.kind == Strategies.ModelMember
    ensures GraphWalk.HasEdge(References(nodes), k, m.id)
  {
    var i :| 0 <= i < |nodes[k].members| && nodes[k].members[i] == m;
    assert References(nodes)[k][i] == GraphWalk.ToNode(m.id);
  }

  /** A model member that exists extends the path. */
  lemma ChildExtendsPath(nodes: map<string, Node>, path: seq<string>, stack: set<string>, m: Member)
    requires OnPath(nodes, path, stack) && path != []
    requires m in nodes[path[|path| - 1]].members && m.kind == Strategies.ModelMember && m.id in nodes
    ensures OnPath(nodes, path + [m.id], stack + {nodes[m.id].id})
  {
    MemberIsAnEdge(nodes, path[|path| - 1], m);
    GraphWalk.PathExtends(References(nodes), path, m.id);
    PathIdsGrow(nodes, path, m.id);
  }

  lemma PathIdsGrow(nodes: map<string, Node>, path: seq<string>, k: string)
    requires k in nodes
    ensures PathIds(nodes, path + [k]) == PathIds(nodes, path) + {nodes[k].id}
  {
    var longer := path + [k];
    forall id | id in PathIds(nodes, path) + {nodes[k].id}
      ensures id in PathIds(nodes, longer)
    {
      if id in PathIds(nodes, path) {
        var i :| 0 <= i < |path| && path[i] in nodes && nodes[path[i]].id == id;
        assert longer[i] == path[i];
      } else {
        assert longer[|path|] == k;
      }
    }
  }

  lemma RootIsOnPath(nodes: map<string, Node>, root: string)
    requires root in nodes
    ensures PathIds(nodes, []) == {} && OnPath(nodes, [root], {nodes[root].id})
    ensures [] + [root] == [root] && {} + {nodes[root].id} == {nodes[root].id}
  {
    PathIdsGrow(nodes, [], root);
    assert [] + [root] == [root];
  }

  lemma MissingChildIsUnresolved(nodes: map<string, Node>, k: string, m: Member)
    requires k in nodes && m in nodes[k].members && m.kind == Strategies.ModelMember && m.id !in nodes
    ensures !GraphWalk.Resolved(References(nodes))
  {
    MemberIsAnEdge(nodes, k, m);
    assert !GraphWalk.EdgeResolved(References(nodes), GraphWalk.ToNode(m.id));
  }

  lemma OnPathFacts(nodes: map<string, Node>, path: seq<string>, stack: set<string>)
    requires OnPath(nodes, path, stack)
    ensures stack == PathIds(nodes, path)
    ensures path != [] ==> path[|path| - 1] in nodes
  {
  }

  /** Where the walk that is about to enter `k` began. */
  function RootOf(path: seq<string>, k: string): string
  {
    if path == [] then k else path[0]
  }

  /** The node about to be entered is on the stack only if some path from the root
      repeats an ID. */
  lemma MeetingTheStackRepeatsAnId(nodes: map<string, Node>, path: seq<string>, k: string, stack: set<string>)
    requires k in nodes && OnPath(nodes, path + [k], stack + {nodes[k].id})
    requires stack == PathIds(nodes, path) && nodes[k].id in stack
    ensures !IdsTellPathsApart(nodes, RootOf(path, k))
  {
    var longer := path + [k];
    var i :| 0 <= i < |path| && path[i] in nodes && nodes[path[i]].id == nodes[k].id;
    assert longer[i] == path[i] && longer[|path|] == k && longer[0] == RootOf(path, k);
    assert GraphWalk.IsPath(References(nodes), longer) && !IdsDistinct(nodes, longer);
  }

  /** Entering `key` while the IDs in `stack` are open, a run that tries every member comes
      to a node whose ID is open already. */
  predicate Meets(nodes: map<string, Node>, key: string, stack: set<string>)
    decreases |NodeIds(nodes) - stack|, 0
  {
    && key in nodes
    && var inner := stack + {nodes[key].id};
       (nodes[key].id in stack
        || (Sets.Smaller(NodeIds(nodes) - inner, NodeIds(nodes) - stack); AnyMeets(nodes, nodes[key].members, inner)))
  }

  predicate AnyMeets(nodes: map<string, Node>, ms: seq<Member>, stack: set<string>)
    decreases |NodeIds(nodes) - stack|, 2
  {
    exists i :: 0 <= i < |ms| && MemberMeets(nodes, ms[i], stack)
  }

  predicate MemberMeets(nodes: map<string, Node>, m: Member, stack: set<string>)
    decreases |NodeIds(nodes) - stack|, 1
  {
    m.kind == Strategies.ModelMember && Meets(nodes, m.id, stack)
  }

  /** Following a path from a node that is being entered leads to every ID it repeats. */
  lemma {:induction false} RepeatedIdIsMet(nodes: map<string, Node>, path: seq<string>, k: nat, i: nat, j: nat)
    requires GraphWalk.IsPath(References(nodes), path) && k <= j
    requires i < j < |path| && path[i] in nodes && path[j] in nodes && nodes[path[i]].id == nodes[path[j]].id
    ensures Meets(nodes, path[k], PathIds(nodes, path[..k]))
    decreases j - k
  {
    hide Meets;
    if k == j {
      assert path[..j][i] == path[i];
      OpenIsMet(nodes, path[j], PathIds(nodes, path[..j]));
    } else {
      assert GraphWalk.HasEdge(References(nodes), path[k], path[k + 1]);
      RepeatedIdIsMet(nodes, path, k + 1, i, j);
      assert path[..k + 1] == path[..k] + [path[k]];
      PathIdsGrow(nodes, path[..k], path[k]);
      var c :| 0 <= c < |References(nodes)[path[k]]| && References(nodes)[path[k]][c] == GraphWalk.ToNode(path[k + 1]);
      MeetsBelow(nodes, path[k], c, PathIds(nodes, path[..k]));
    }
  }

  lemma OpenIsMet(nodes: map<string, Node>, key: string, stack: set<string>)
    requires key in nodes && nodes[key].id in stack
    ensures Meets(nodes, key, stack)
  {
  }

  lemma MeetsBelow(nodes: map<string, Node>, key: string, c: nat, stack: set<string>)
    requires key in nodes && c < |nodes[key].members|
               && MemberMeets(nodes, nodes[key].members[c], stack + {nodes[key].id})
    ensures Meets(nodes, key, stack)
  {
  }

  lemma MeetingIsKnown(nodes: map<string, Node>, m: Member, stack: set<string>)
    requires MemberMeets(nodes, m, stack)
    ensures m.kind == Strategies.ModelMember && m.id in nodes && Meets(nodes, m.id, stack)
  {
  }

  /** What a run meets lies on a path that repeats an ID. */
  lemma {:induction false} MeetingRepeatsAnId(nodes: map<string, Node>, path: seq<string>, key: string,
                                              stack: set<string>)
    requires Meets(nodes, key, stack) && stack == PathIds(nodes, path)
               && OnPath(nodes, path + [key], stack + {nodes[key].id})
    ensures !IdsTellPathsApart(nodes, RootOf(path, key))
    decreases |NodeIds(nodes) - stack|
  {
    hide OnPath, PathIds, IdsTellPathsApart;
    if nodes[key].id in stack {
      MeetingTheStackRepeatsAnId(nodes, path, key, stack);
    } else {
      var inner := stack + {nodes[key].id};
      Sets.Smaller(NodeIds(nodes) - inner, NodeIds(nodes) - stack);
      var ms, longer := nodes[key].members, path + [key];
      assert AnyMeets(nodes, ms, inner);
      var i :| 0 <= i < |ms| && MemberMeets(nodes, ms[i], inner);
      MeetingIsKnown(nodes, ms[i], inner);
      assert longer[|longer| - 1] == key && ms[i] in ms;
      ChildExtendsPath(nodes, longer, inner, ms[i]);
      OnPathFacts(nodes, longer, inner);
      MeetingRepeatsAnId(nodes, longer, ms[i].id, inner);
      assert RootOf(longer, ms[i].id) == RootOf(path, key);
    }
  }

  /** From a node a run can come to an open ID exactly when some path from there repeats
      one. */
  lemma MeetsExactlyWhenAnIdRepeats(nodes: map<string, Node>, root: string)
    requires root in nodes
    ensures Meets(nodes, root, {}) <==> !IdsTellPathsApart(nodes, root)
  {
    hide Meets, OnPath, PathIds;
    RootIsOnPath(nodes, root);
    if Meets(nodes, root, {}) {
      MeetingRepeatsAnId(nodes, [], root, {});
    }
    if !IdsTellPathsApart(nodes, root) {
      var path :| GraphWalk.IsPath(References(nodes), path) && path != [] && path[0] == root
        && !IdsDistinct(nodes, path);
      var i, j :| 0 <= i < j < |path| && path[i] in nodes && path[j] in nodes && nodes[path[i]].id == nodes[path[j]].id;
      RepeatedIdIsMet(nodes, path, 0, i, j);
      assert path[..0] == [];
    }
  }

  predicate KeyedById(nodes: map<string, Node>)
  {
    forall k :: k in nodes ==> nodes[k].id == k
  }

  /** Snapshots keyed by node ID, as the snapshot builder makes them, meet the
      condition whenever their graph was accepted. */
  lemma KeyedByIdSuffices(nodes: map<string, Node>, root: string)
    requires KeyedById(nodes) && !GraphWalk.Cyclic(References(nodes))
    ensures IdsTellPathsApart(nodes, root)
  {
    forall path | GraphWalk.IsPath(References(nodes), path)
      ensures IdsDistinct(nodes, path)
    {
      GraphWalk.AcyclicPathsAreSimple(References(nodes), path);
    }
  }

  const LINKED_TWINS: map<string, Node> :=
    map["a" := Node("x", false, [LINK], BuiltIn(Strategies.Ordered), false, false),
        "b" := Node("x", false, [], BuiltIn(Strategies.Ordered), false, false)]

  const LINK := Strategies.Member(Strategies.ModelMember, "b", 1, Strategies.Unset, false)

  /** Acceptance alone is not enough: two keys of an accepted snapshot may carry one
      ID, and then a path can repeat it. */
  lemma AcceptedGraphMayRepeatAnId()
    ensures GraphWalk.Sound(References(LINKED_TWINS)) && !IdsTellPathsApart(LINKED_TWINS, "a")
  {
    hide GraphWalk.Sound, Sets.NoRepeats;
    var nodes := LINKED_TWINS;
    var g := References(nodes);
    assert "a" != "b";
    assert g["a"] == [GraphWalk.ToNode("b")] && g["b"] == [];
    assert GraphWalk.Finished(g, ["b", "a"]) by {
      assert ["b", "a"][..1] == ["b"] && "b" in GraphWalk.Elements(["b"]);
    }
    TwoKeysDiffer();
    GraphWalk.FinishedIsSound(g, ["b", "a"]);
    MemberIsAnEdge(nodes, "a", LINK);
    var path := ["a", "b"];
    assert GraphWalk.IsPath(g, path) && path[0] == "a" && !IdsDistinct(nodes, path);
  }

  lemma TwoKeysDiffer()
    ensures Sets.NoRepeats(["b", "a"])
  {
    assert "b"[0] != "a"[0];
  }

  // ----- How often a run can meet a candidate -----------------------------------------

  /** Round robin plans one of several members; every other built-in strategy plans all. */
  predicate PlansOne(node: Node)
  {
    node.planning == BuiltIn(Strategies.RoundRobin) && |node.members| >= 2
  }

  predicate AllBuiltIn(nodes: map<string, Node>)
  {
    forall k :: k in nodes ==> nodes[k].planning.BuiltIn?
  }

  /** The candidates met in one run below a node, each weighed by `w`: the unfolding of
      the graph, with the heaviest member of a node that plans only one. */
  function NodeLoad(nodes: map<string, Node>, t: Tables, w: Candidate -> nat, key: string, stack: set<string>): nat
    decreases |NodeIds(nodes) - stack|, 0, 0
  {
    if key !in nodes || nodes[key].id in stack then 0
    else
      var inner := stack + {nodes[key].id};
      Sets.Smaller(NodeIds(nodes) - inner, NodeIds(nodes) - stack);
      PlanLoad(nodes, t, w, nodes[key], inner)
  }

  /** What the plan of an entered node can come to. */
  function PlanLoad(nodes: map<string, Node>, t: Tables, w: Candidate -> nat, node: Node, stack: set<string>): nat
    decreases |NodeIds(nodes) - stack|, 3, 0
  {
    if PlansOne(node) then
      var heaviest := node.members[Heaviest(nodes, t, w, node, node.members, stack)];
      MemberLoad(nodes, t, w, node, heaviest, stack)
    else MembersLoad(nodes, t, w, node, node.members, stack)
  }

  function MembersLoad(nodes: map<string, Node>, t: Tables, w: Candidate -> nat, node: Node, ms: seq<Member>,
                       stack: set<string>): nat
    decreases |NodeIds(nodes) - stack|, 2, |ms|
  {
    if ms == [] then 0
    else MembersLoad(nodes, t, w, node, ms[..|ms| - 1], stack) + MemberLoad(nodes, t, w, node, ms[|ms| - 1], stack)
  }

  function MemberLoad(nodes: map<string, Node>, t: Tables, w: Candidate -> nat, node: Node, m: Member,
                      stack: set<string>): nat
    decreases |NodeIds(nodes) - stack|, 1, 0
  {
    if m.kind == Strategies.ModelMember then NodeLoad(nodes, t, w, m.id, stack)
    else if node.physical && !PhysicalSourceAllowed(node, m) then 0
    else Weigh(Resolve(t, m), w)
  }

  function Heaviest(nodes: map<string, Node>, t: Tables, w: Candidate -> nat, node: Node, ms: seq<Member>,
                    stack: set<string>): (i: nat)
    requires ms != []
    ensures i < |ms|
    ensures forall j ::
              0 <= j < |ms| ==>
                MemberLoad(nodes, t, w, node, ms[j], stack) <= MemberLoad(nodes, t, w, node, ms[i], stack)
    decreases |NodeIds(nodes) - stack|, 2, |ms|
  {
    var loads := seq(|ms|, i requires 0 <= i < |ms| => MemberLoad(nodes, t, w, node, ms[i], stack));
    var i := Largest(loads);
    assert loads[i] == MemberLoad(nodes, t, w, node, ms[i], stack);
    assert forall j :: 0 <= j < |ms| ==> loads[j] == MemberLoad(nodes, t, w, node, ms[j], stack);
    i
  }

  function Largest(loads: seq<nat>): (i: nat)
    requires loads != []
    ensures i < |loads| && forall j :: 0 <= j < |loads| ==> loads[j] <= loads[i]
  {
    var n := |loads| - 1;
    if n == 0 then 0
    else
      var i := Largest(loads[..n]);
      if loads[n] > loads[i] then n else i
  }

  lemma {:induction false} LoadConcat(nodes: map<string, Node>, t: Tables, w: Candidate -> nat, node: Node,
                                      a: seq<Member>, b: seq<Member>, stack: set<string>)
    ensures MembersLoad(nodes, t, w, node, a + b, stack) ==
              MembersLoad(nodes, t, w, node, a, stack) + MembersLoad(nodes, t, w, node, b, stack)
    decreases |b|
  {
    hide MemberLoad;
    if b == [] {
      assert a + b == a;
    } else {
      assert (a + b)[..|a + b| - 1] == a + b[..|b| - 1];
      LoadConcat(nodes, t, w, node, a, b[..|b| - 1], stack);
    }
  }

  /** Whatever its state, a built-in plan weighs no more than the node's load, and as
      much unless it plans a single member other than the heaviest. */
  lemma PlansWeighNoMore(nodes: map<string, Node>, t: Tables, w: Candidate -> nat, node: Node, s: Strategies.State,
                         stack: set<string>)
    requires node.planning.BuiltIn?
    ensures var strategy, ms := node.planning.strategy, node.members;
            var planned := MembersLoad(nodes, t, w, node, Strategies.Plan(strategy, ms, s), stack);
            && planned <= PlanLoad(nodes, t, w, node, stack)
            && (!PlansOne(node) || Strategies.Start(strategy, ms, s) == Heaviest(nodes, t, w, node, ms, stack) ==>
                  planned == PlanLoad(nodes, t, w, node, stack))
  {
    hide MemberLoad, Strategies.Start, Heaviest;
    var strategy, ms := node.planning.strategy, node.members;
    if PlansOne(node) {
      LoadOfOne(nodes, t, w, node, ms[Strategies.Start(strategy, ms, s)], stack);
    } else if |ms| >= 2 && strategy != Strategies.Ordered {
      var i := Strategies.Start(strategy, ms, s);
      assert ms == ms[..i] + ms[i..];
      LoadConcat(nodes, t, w, node, ms[..i], ms[i..], stack);
      LoadConcat(nodes, t, w, node, ms[i..], ms[..i], stack);
    }
  }

  lemma LoadOfNext(nodes: map<string, Node>, t: Tables, w: Candidate -> nat, node: Node, ms: seq<Member>, i: nat,
                   stack: set<string>)
    requires i < |ms|
    ensures MembersLoad(nodes, t, w, node, ms[..i + 1], stack)
            == MembersLoad(nodes, t, w, node, ms[..i], stack) + MemberLoad(nodes, t, w, node, ms[i], stack)
  {
    hide MemberLoad;
    assert ms[..i + 1][..i] == ms[..i];
  }

  lemma LoadOfNone(nodes: map<string, Node>, t: Tables, w: Candidate -> nat, node: Node, ms: seq<Member>,
                   stack: set<string>)
    ensures MembersLoad(nodes, t, w, node, ms[..0], stack) == 0
  {
  }

  lemma LoadOfOne(nodes: map<string, Node>, t: Tables, w: Candidate -> nat, node: Node, m: Member, stack: set<string>)
    ensures MembersLoad(nodes, t, w, node, [m], stack) == MemberLoad(nodes, t, w, node, m, stack)
  {
    hide MemberLoad;
    assert [m][..0] == [];
  }

  // ----- Listings ---------------------------------------------------------------------

  /** The most requests one visit can send to a candidate. */
  function Burst(safety: Safety, canRefresh: bool, c: Candidate): nat
  {
    if safety == WithKey || (safety == OnRejection && canRefresh && c.recoverByRefresh) then 2 else 1
  }

  function Share(safety: Safety, canRefresh: bool, id: string): Candidate -> nat
  {
    (c: Candidate) => if c.id == id && c.serves then Burst(safety, canRefresh, c) else 0
  }

  function Listing(id: string): Candidate -> nat
  {
    (c: Candidate) => if c.id == id && c.serves then 1 else 0
  }

  /** How many times a candidate is listed below a node. */
  function Listed(nodes: map<string, Node>, t: Tables, root: string, id: string): nat
  {
    NodeLoad(nodes, t, Listing(id), root, {})
  }

  /** The most requests a run from the node can send to a candidate. */
  function MostRequests(nodes: map<string, Node>, t: Tables, root: string, safety: Safety, canRefresh: bool,
                        id: string): nat
  {
    NodeLoad(nodes, t, Share(safety, canRefresh, id), root, {})
  }

  predicate CandidatesRefresh(t: Tables, id: string)
  {
    forall k :: k in t.routes && t.routes[k].id == id ==> t.routes[k].recoverByRefresh
  }

  /** `x` is at most twice `y`, or, the other way, at most half of it. */
  predicate AtMost(x: nat, y: nat, twice: bool)
  {
    if twice then x <= 2 * y else 2 * x <= y
  }

  ghost predicate RoutesAtMost(t: Tables, w: Candidate -> nat, v: Candidate -> nat, twice: bool)
  {
    forall k :: k in t.routes ==> AtMost(w(t.routes[k]), v(t.routes[k]), twice)
  }

  lemma {:induction false} KnownAtMost(t: Tables, w: Candidate -> nat, v: Candidate -> nat, twice: bool,
                                       ids: seq<string>)
    requires RoutesAtMost(t, w, v, twice)
    ensures AtMost(Weigh(KnownRoutes(t, ids), w), Weigh(KnownRoutes(t, ids), v), twice)
    decreases |ids|
  {
    if ids != [] {
      var front, last := ids[..|ids| - 1], ids[|ids| - 1];
      KnownAtMost(t, w, v, twice, front);
      if last !in front && last in t.routes {
        WeighConcat(KnownRoutes(t, front), [t.routes[last]], w);
        WeighConcat(KnownRoutes(t, front), [t.routes[last]], v);
        assert [t.routes[last]][..0] == [];
      } else {
        assert KnownRoutes(t, ids) == KnownRoutes(t, front);
      }
    }
  }

  lemma ResolvedAtMost(t: Tables, w: Candidate -> nat, v: Candidate -> nat, twice: bool, m: Member)
    requires RoutesAtMost(t, w, v, twice)
    ensures AtMost(Weigh(Resolve(t, m), w), Weigh(Resolve(t, m), v), twice)
  {
    match m.kind
    case RouteMember =>
      if m.id in t.routes {
        assert [t.routes[m.id]][..0] == [];
      }
    case RouteGroupMember => KnownAtMost(t, w, v, twice, GroupIds(t, m.id));
    case _ =>
  }

  /** What holds of each route's weight holds of the loads. */
  lemma {:induction false} NodeAtMost(nodes: map<string, Node>, t: Tables, w: Candidate -> nat, v: Candidate -> nat,
                                      twice: bool, key: string, stack: set<string>)
    requires RoutesAtMost(t, w, v, twice)
    ensures AtMost(NodeLoad(nodes, t, w, key, stack), NodeLoad(nodes, t, v, key, stack), twice)
    decreases |NodeIds(nodes) - stack|, 0, 0
  {
    hide MemberLoad, MembersLoad, Heaviest, RoutesAtMost;
    if key in nodes && nodes[key].id !in stack {
      var node := nodes[key];
      var inner := stack + {node.id};
      Sets.Smaller(NodeIds(nodes) - inner, NodeIds(nodes) - stack);
      if PlansOne(node) {
        MemberAtMost(nodes, t, w, v, twice, node, node.members[Heaviest(nodes, t, w, node, node.members, inner)],
                     inner);
      } else {
        MembersAtMost(nodes, t, w, v, twice, node, node.members, inner);
      }
    }
  }

  lemma {:induction false} MembersAtMost(nodes: map<string, Node>, t: Tables, w: Candidate -> nat, v: Candidate -> nat,
                                         twice: bool, node: Node, ms: seq<Member>, stack: set<string>)
    requires RoutesAtMost(t, w, v, twice)
    ensures AtMost(MembersLoad(nodes, t, w, node, ms, stack), MembersLoad(nodes, t, v, node, ms, stack), twice)
    decreases |NodeIds(nodes) - stack|, 2, |ms|
  {
    hide MemberLoad, RoutesAtMost;
    if ms != [] {
      MembersAtMost(nodes, t, w, v, twice, node, ms[..|ms| - 1], stack);
      MemberAtMost(nodes, t, w, v, twice, node, ms[|ms| - 1], stack);
    }
  }

  lemma {:induction false} MemberAtMost(nodes: map<string, Node>, t: Tables, w: Candidate -> nat, v: Candidate -> nat,
                                        twice: bool, node: Node, m: Member, stack: set<string>)
    requires RoutesAtMost(t, w, v, twice)
    ensures AtMost(MemberLoad(nodes, t, w, node, m, stack), MemberLoad(nodes, t, v, node, m, stack), twice)
    decreases |NodeIds(nodes) - stack|, 1, 0
  {
    hide NodeLoad, Weigh, Resolve, RoutesAtMost;
    if m.kind == Strategies.ModelMember {
      NodeAtMost(nodes, t, w, v, twice, m.id, stack);
    } else {
      ResolvedAtMost(t, w, v, twice, m);
    }
  }

  /** No candidate can get more than two requests a listing. */
  lemma TwoRequestsAListing(nodes: map<string, Node>, t: Tables, root: string, safety: Safety, canRefresh: bool,
                            id: string)
    ensures MostRequests(nodes, t, root, safety, canRefresh, id) <= 2 * Listed(nodes, t, root, id)
  {
    NodeAtMost(nodes, t, Share(safety, canRefresh, id), Listing(id), true, root, {});
  }

  /** With refreshable credentials, the bound of two requests per candidate holds of a
      snapshot exactly when the candidate is listed at most once. */
  lemma AtMostTwoExactlyWhenListedOnce(nodes: map<string, Node>, t: Tables, root: string, id: string)
    requires CandidatesRefresh(t, id)
    ensures MostRequests(nodes, t, root, OnRejection, true, id) == 2 * Listed(nodes, t, root, id)
    ensures MostRequests(nodes, t, root, OnRejection, true, id) <= 2 <==> Listed(nodes, t, root, id) <= 1
  {
    hide NodeLoad;
    TwoRequestsAListing(nodes, t, root, OnRejection, true, id);
    NodeAtMost(nodes, t, Listing(id), Share(OnRejection, true, id), false, root, {});
  }

  lemma OneListing(c: Candidate, id: string)
    ensures Weigh([c], Listing(id)) == if c.id == id && c.serves then 1 else 0
  {
    assert [c][..0] == [];
  }

  /** De-duplication keeps any one member from listing a candidate twice. */
  lemma {:induction false} OneMemberListsOnce(t: Tables, ids: seq<string>, id: string)
    requires RoutesKeyedById(t)
    ensures Weigh(KnownRoutes(t, ids), Listing(id)) == if id in ids && id in t.routes && t.routes[id].serves then 1
                                                       else 0
    decreases |ids|
  {
    hide Weigh, Listing;
    if ids == [] {
      NothingListed(id);
    } else {
      var front, last := ids[..|ids| - 1], ids[|ids| - 1];
      OneMemberListsOnce(t, front, id);
      assert ids == front + [last];
      if last !in front && last in t.routes {
        WeighConcat(KnownRoutes(t, front), [t.routes[last]], Listing(id));
        OneListing(t.routes[last], id);
      } else {
        assert KnownRoutes(t, ids) == KnownRoutes(t, front);
      }
    }
  }

  lemma NothingListed(id: string)
    ensures Weigh([], Listing(id)) == 0
  {
  }
}
