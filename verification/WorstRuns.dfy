/** Runs that reach the bounds of `Dispatch`: worlds in which a candidate gets every request
    its listings allow, and one in which an error that wraps "no route" sends an operation
    that must not be repeated a second time. */
module WorstRuns {
  import opened Sums
  import opened Replay
  import opened DispatchTrace
  import opened Usage
  import opened Snapshots
  import opened Worlds
  import opened Dispatch
  import Strategies
  import GraphWalk
  import Sets

  const REQUEST := Upstream("POST", "https://upstream/v1", map[], false)
  const EXPIRED := Outcome(Auth, Some(Rejected), RetryNever, false, true)
  const UNAUTHORIZED := Refuses(401, AuthClass, EXPIRED, Fine, false, 0, 0, true, false)
  const REJECTED := Round(Some(REQUEST), false, false, Fine, 0, UNAUTHORIZED)
  const LEAKED := Round(Some(REQUEST), false, false, Fine, 0, Answers(false, false, Fails(true), false, false, false))
  const NO_POLICY := Policy("", 0)

  function Reaching(r: Round): VisitChoice
  {
    VisitChoice(Passes, NO_POLICY, true, Fine, Fine, Fine, r, r)
  }

  const SKIPPED := VisitChoice(Skips, NO_POLICY, false, Fine, Fine, Fine, REJECTED, REJECTED)

  function ChoiceFor(id: string, leaking: bool, c: Candidate): VisitChoice
  {
    if c.id != id then SKIPPED else if leaking then Reaching(LEAKED) else Reaching(REJECTED)
  }

  function Cursor(nodes: map<string, Node>, t: Tables, w: Candidate -> nat, key: string, stack: set<string>): nat
  {
    if key in nodes && PlansOne(nodes[key]) then Heaviest(nodes, t, w, nodes[key], nodes[key].members, stack) else 0
  }

  /** The world that keeps sending a run back to one candidate. */
  function SteadyWorld(nodes: map<string, Node>, t: Tables, w: Candidate -> nat, id: string, leaking: bool): World
  {
    World(Fine,
          (n: nat, key: string, stack: set<string>) => NodeChoice(Fine,
            Strategies.State(Cursor(nodes, t, w, key, stack), 0, 0), []),
          (n: nat) => MemberChoice(false, Unranked, false),
          (n: nat, c: Candidate) => ChoiceFor(id, leaking, c))
  }

  lemma SteadyWorldInsists(nodes: map<string, Node>, t: Tables, w: Candidate -> nat, id: string, leaking: bool)
    ensures Insisting(SteadyWorld(nodes, t, w, id, leaking), id, leaking)
    ensures PlansHeaviest(SteadyWorld(nodes, t, w, id, leaking), nodes, t, w)
  {
    hide Heaviest;
    assert RejectsRound(REJECTED) && LeaksRound(LEAKED);
  }

  /** What acceptance and node IDs as keys guarantee of a snapshot. */
  ghost predicate Runnable(nodes: map<string, Node>)
  {
    GraphWalk.Resolved(References(nodes)) && (forall root :: IdsTellPathsApart(nodes, root)) && AllBuiltIn(nodes)
  }

  lemma AcceptedIsRunnable(nodes: map<string, Node>)
    requires GraphWalk.Sound(References(nodes)) && KeyedById(nodes) && AllBuiltIn(nodes)
    ensures Runnable(nodes)
  {
    forall root
      ensures IdsTellPathsApart(nodes, root)
    {
      KeyedByIdSuffices(nodes, root);
    }
  }

  /** In some world a run sends a candidate every request its listings allow, so the bound
      `Dispatch.Execution.Execute` proves of every run is exact for every snapshot. */
  method RejectedEverywhere(nodes: map<string, Node>, t: Tables, published: map<string, string>, model: string,
                            canRefresh: bool, id: string)
    returns (run: Execution, end: NodeEnd)
    requires Runnable(nodes) && model in published && forall name :: name in published ==> published[name] in nodes
    ensures run.safety == OnRejection && !run.mayWrap && run.nodes == nodes && run.tables == t
              && run.canRefresh == canRefresh
    ensures run.watched == id && run.Valid() && run.Steady()
    ensures Requests(run.dispatches, id) == MostRequests(nodes, t, published[model], OnRejection, canRefresh, id)
    ensures canRefresh && CandidatesRefresh(t, id) ==>
              Requests(run.dispatches, id) == 2 * Listed(nodes, t, published[model], id)
  {
    hide Insisting, PlansHeaviest, AllBuiltIn, IdsTellPathsApart, GraphWalk.Resolved, Share, Good, CandidatesRefresh,
         NodeLoad;
    var w := Share(OnRejection, canRefresh, id);
    SteadyWorldInsists(nodes, t, w, id, false);
    var sink := new UsageSink(0);
    run := new Execution(OnRejection, "", nodes, t, canRefresh, false, SteadyWorld(nodes, t, w, id, false), sink, id,
                         false);
    ghost var log;
    end, log := run.Execute(published, model);
    if canRefresh && CandidatesRefresh(t, id) {
      AtMostTwoExactlyWhenListedOnce(nodes, t, published[model], id);
    }
  }

  // ----- Runs that meet their own stack -------------------------------------------------

  function MeetingIndex(nodes: map<string, Node>, ms: seq<Member>, stack: set<string>): (i: nat)
    requires AnyMeets(nodes, ms, stack)
    ensures i < |ms| && MemberMeets(nodes, ms[i], stack)
  {
    if MemberMeets(nodes, ms[0], stack) then 0
    else
      assert AnyMeets(nodes, ms[1..], stack) by {
        var i :| 0 <= i < |ms| && MemberMeets(nodes, ms[i], stack);
        assert ms[1..][i - 1] == ms[i];
      }
      MeetingIndex(nodes, ms[1..], stack) + 1
  }

  function MeetingCursor(nodes: map<string, Node>, key: string, stack: set<string>): nat
  {
    if key in nodes && AnyMeets(nodes, nodes[key].members, stack) then MeetingIndex(nodes, nodes[key].members, stack)
      else 0
  }

  /** The world in which nobody is available and the run walks to an open ID if it can. */
  function QuietWorld(nodes: map<string, Node>): World
  {
    World(Fine,
          (n: nat, key: string, stack: set<string>) => NodeChoice(Fine,
            Strategies.State(MeetingCursor(nodes, key, stack), 0, 0), []),
          (n: nat) => MemberChoice(false, Unranked, false),
          (n: nat, c: Candidate) => SKIPPED)
  }

  lemma QuietWorldWalks(nodes: map<string, Node>)
    ensures Idle(QuietWorld(nodes)) && PlansMeeting(QuietWorld(nodes), nodes)
  {
    hide MemberMeets, AnyMeets;
  }

  /** Some run takes the cycle branch exactly when a path from the published node repeats a
      node ID: `Dispatch.Execution.Execute` shows that no run does otherwise. */
  method MeetsItsStackExactlyWhenAnIdRepeats(safety: Safety, nodes: map<string, Node>, t: Tables, published: map<string,
                                             string>, model: string)
    returns (run: Execution, end: NodeEnd)
    requires GraphWalk.Resolved(References(nodes)) && AllBuiltIn(nodes)
    requires model in published && forall name :: name in published ==> published[name] in nodes
    ensures run.safety == safety && !run.mayWrap && run.nodes == nodes && run.tables == t && run.Valid()
    ensures end.CycleMet? <==> !IdsTellPathsApart(nodes, published[model])
  {
    hide Idle, PlansMeeting, AllBuiltIn, IdsTellPathsApart, GraphWalk.Resolved, Good, NodeLoad;
    QuietWorldWalks(nodes);
    var sink := new UsageSink(0);
    run := new Execution(safety, "", nodes, t, false, false, QuietWorld(nodes), sink, "", false);
    ghost var log;
    end, log := run.Execute(published, model);
  }

  /** On an accepted snapshot whose two nodes carry one ID the recursion meets its own
      stack. */
  method AcceptedTwinsMeetThemselves() returns (run: Execution, end: NodeEnd)
    ensures run.nodes == LINKED_TWINS && GraphWalk.Sound(References(LINKED_TWINS)) && end.CycleMet?
  {
    hide IdsTellPathsApart;
    AcceptedGraphMayRepeatAnId();
    assert "a" in LINKED_TWINS;
    run, end := MeetsItsStackExactlyWhenAnIdRepeats(OnRejection, LINKED_TWINS, ONE_ROUTE, map["m" := "a"], "m");
  }

  // ----- Two concrete snapshots ---------------------------------------------------------

  const ROUTE_A := Strategies.Member(Strategies.RouteMember, "a", 1, Strategies.Exact, false)
  const LEAF := Node("left", true, [ROUTE_A], BuiltIn(Strategies.Ordered), false, false)
  const ROOT := Node("root", false, [To("left"), To("right")], BuiltIn(Strategies.Ordered), false, false)
  const TWO_LISTINGS: map<string, Node> := map["root" := ROOT, "left" := LEAF, "right" := LEAF.(id := "right")]
  const ONE_ROUTE := Tables(map["a" := Candidate("a", true, true)], map[], map[])

  function To(id: string): Member
  {
    Strategies.Member(Strategies.ModelMember, id, 1, Strategies.Exact, false)
  }

  lemma KeysDiffer()
    ensures Sets.NoRepeats(["left", "right", "root"])
  {
    var order := ["left", "right", "root"];
    assert order[0][0] != order[1][0] && order[1][1] != order[2][1] && order[0][0] != order[2][0];
  }

  lemma TwoListingsAreAccepted()
    ensures Runnable(TWO_LISTINGS) && OneCandidateANode(TWO_LISTINGS, ONE_ROUTE)
  {
    hide Runnable, GraphWalk.Sound, Sets.NoRepeats;
    var g := References(TWO_LISTINGS);
    var order := ["left", "right", "root"];
    assert g["left"] == [GraphWalk.Leaf(true)] && g["right"] == [GraphWalk.Leaf(true)];
    assert g["root"] == [GraphWalk.ToNode("left"), GraphWalk.ToNode("right")];
    assert GraphWalk.Finished(g, order) by {
      assert order[..2] == ["left", "right"];
      assert "left" in GraphWalk.Elements(order[..2]) && "right" in GraphWalk.Elements(order[..2]);
    }
    KeysDiffer();
    GraphWalk.FinishedIsSound(g, order);
    AcceptedIsRunnable(TWO_LISTINGS);
  }

  lemma LoadOfTwoListings(w: Candidate -> nat)
    ensures NodeLoad(TWO_LISTINGS, ONE_ROUTE, w, "root", {}) == 2 * w(Candidate("a", true, true))
  {
    LeafLoad(w, "left", {"root"});
    LeafLoad(w, "right", {"root"});
    var ms := ROOT.members;
    assert ms[..1] == [To("left")] && [To("left")][..0] == [];
    assert {} + {"root"} == {"root"};
    calc {
      MembersLoad(TWO_LISTINGS, ONE_ROUTE, w, ROOT, ms, {"root"});
      MembersLoad(TWO_LISTINGS, ONE_ROUTE, w, ROOT, [To("left")], {"root"}) + MemberLoad(TWO_LISTINGS, ONE_ROUTE, w,
                                                                                         ROOT, To("right"), {"root"});
      { LoadOfOne(TWO_LISTINGS, ONE_ROUTE, w, ROOT, To("left"), {"root"}); }
      2 * w(Candidate("a", true, true));
    }
  }

  lemma LeafLoad(w: Candidate -> nat, key: string, stack: set<string>)
    requires key in ["left", "right"] && stack == {"root"}
    ensures NodeLoad(TWO_LISTINGS, ONE_ROUTE, w, key, stack) == w(Candidate("a", true, true))
  {
    var node := TWO_LISTINGS[key];
    var inner := stack + {node.id};
    var c := Candidate("a", true, true);
    assert node.members == [ROUTE_A] && node.id == key;
    assert key[1] != "root"[1];
    assert key !in stack && PhysicalSourceAllowed(node, ROUTE_A);
    assert Resolve(ONE_ROUTE, ROUTE_A) == [c] && [c][..0] == [];
    LoadOfOne(TWO_LISTINGS, ONE_ROUTE, w, node, ROUTE_A, inner);
    assert MemberLoad(TWO_LISTINGS, ONE_ROUTE, w, node, ROUTE_A, inner) == Weigh([c], w) == w(c);
    assert NodeLoad(TWO_LISTINGS, ONE_ROUTE, w, key, stack) == PlanLoad(TWO_LISTINGS, ONE_ROUTE, w, node, inner);
  }

  /** A route two members list can get four requests: the bound of two is per listing. */
  method ListedTwiceGetsFour() returns (run: Execution, end: NodeEnd)
    ensures run.safety == OnRejection && !run.mayWrap && run.nodes == TWO_LISTINGS && run.tables == ONE_ROUTE
    ensures Listed(run.nodes, run.tables, "root", "a") == 2 && Requests(run.dispatches, "a") == 4
  {
    hide Runnable;
    TwoListingsAreAccepted();
    LoadOfTwoListings(Share(OnRejection, true, "a"));
    LoadOfTwoListings(Listing("a"));
    run, end := RejectedEverywhere(TWO_LISTINGS, ONE_ROUTE, map["m" := "root"], "m", true, "a");
  }

  /** When foreign errors may wrap "no route", even a never-replay operation reaches the
      upstream twice: the error of the first answer reads as an exhausted sibling. */
  method LeakedErrorSendsAgain() returns (run: Execution, end: NodeEnd)
    ensures run.safety == Never && run.mayWrap && run.nodes == TWO_LISTINGS && run.tables == ONE_ROUTE
    ensures Requests(run.dispatches, "a") == 2 && |run.dispatches| >= 2
  {
    hide Insisting, PlansHeaviest, AllBuiltIn, IdsTellPathsApart, GraphWalk.Resolved, Good, NodeLoad;
    var w := Share(Never, true, "a");
    TwoListingsAreAccepted();
    LoadOfTwoListings(w);
    SteadyWorldInsists(TWO_LISTINGS, ONE_ROUTE, w, "a", true);
    var sink := new UsageSink(0);
    run := new Execution(Never, "", TWO_LISTINGS, ONE_ROUTE, true, true,
                         SteadyWorld(TWO_LISTINGS, ONE_ROUTE, w, "a", true), sink, "a", true);
    ghost var log;
    end, log := run.Execute(map["m" := "root"], "m");
    RequestsAreSent(run.dispatches, "a");
  }
}
