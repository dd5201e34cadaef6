/** Everything a run of the kernel depends on besides the request and the snapshot: what
    adapters, credentials, transforms, gates, rankers, clocks and clients do. A `World`
    answers each question when it is asked; a claim about every world is a claim about
    every run. */
module Worlds {
  import opened Sums
  import opened Replay
  import opened Snapshots
  import Strategies

  /** Errors as the fallback sees them: `wraps` says whether an error of some
      other component wraps "no route". */
  datatype Err =
    | NoRoute
    | Canceled
    | Other(wraps: bool)
    | Suppressed(effect: Effect, cause: Err)

  predicate IsNoRoute(e: Err)
  {
    match e
    case NoRoute => true
    case Other(wraps) => wraps
    case Suppressed(_, cause) => IsNoRoute(cause)
    case _ => false
  }

  datatype Upstream = Upstream(verb: string, url: string, headers: Headers, replay: bool)

  datatype Trouble = Fine | Fails(wraps: bool)

  type ErrorStatus = status: int | status >= 400 witness 400

  /** What comes of a request that was sent. `cancelled` is the client's context when the
      reply is handled, `now` the clock. */
  datatype Reply =
    | TransportFails(wraps: bool, cancelled: bool, now: int)
      /** An error status; `lost` is a continuity that must be restarted, `renewed` a
          credential that came back changed from its refresh. */
    | Refuses(status: ErrorStatus, errorClass: ErrorClass, outcome: Outcome, lost: Trouble, cancelled: bool, now: int,
              later: int, renewed: bool, stops: bool)
    | Answers(completes: bool, requiredMissing: bool, trouble: Trouble, cancelled: bool, late: bool, committed: bool)

  /** One pass of the retry loop. */
  datatype Round = Round(prepared: Option<Upstream>, prepareWraps: bool, cancelled: bool, authority: Trouble, now: int,
    reply: Reply)

  /** What happens before admission, which sends nothing. */
  datatype Gate = Passes | Skips | SkipsWith(wraps: bool) | Aborts(wraps: bool)

  datatype VisitChoice = VisitChoice(
    gate: Gate, policy: Policy, admitted: bool, lease: Trouble, borrow: Trouble, scope: Trouble, first: Round,
      second: Round)

  /** `state` is the strategy state a built-in plan starts from, which other requests
      advance too; `plan` is what an extension's strategy answers. */
  datatype NodeChoice = NodeChoice(transform: Trouble, state: Strategies.State, plan: seq<nat>)

  /** Rankers reorder candidates and leave out those that cannot be used now. */
  type Ranking = r: seq<Candidate> -> seq<Candidate> | forall cs :: multiset(r(cs)) <= multiset(cs) witness Unranked

  const Unranked: seq<Candidate> -> seq<Candidate> := (cs: seq<Candidate>) => cs

  datatype MemberChoice = MemberChoice(cancelled: bool, ranking: Ranking, stops: bool)

  datatype World = World(
    preparation: Trouble,
    node: (nat, string, set<string>) -> NodeChoice,
    member: nat -> MemberChoice,
    visit: (nat, Candidate) -> VisitChoice)

  /** The members a node tries, in order. */
  function Planned(node: Node, choice: NodeChoice): seq<Member>
  {
    match node.planning
    case BuiltIn(strategy) => Strategies.Plan(strategy, node.members, choice.state)
    case Extension =>
      if node.members == [] then []
      else seq(|choice.plan|, i requires 0 <= i < |choice.plan| => node.members[choice.plan[i] % |node.members|])
  }

  lemma PlannedIsMember(node: Node, choice: NodeChoice, i: nat)
    requires i < |Planned(node, choice)|
    ensures Planned(node, choice)[i] in node.members
  {
  }

  /** Built-in strategies stop at terminal failures only. */
  predicate Stops(node: Node, errorClass: ErrorClass, stops: bool)
  {
    if node.planning.BuiltIn? then errorClass == Terminal else stops
  }

  // ----- Two kinds of world -----------------------------------------------------------

  predicate Reached(v: VisitChoice)
  {
    v.gate.Passes? && v.admitted && v.lease.Fine? && v.borrow.Fine? && v.scope.Fine?
  }

  predicate Sends(r: Round)
  {
    r.prepared.Some? && !r.cancelled && r.authority.Fine?
  }

  /** The request is confirmed rejected for its credential, which is then renewed. */
  predicate RejectsReply(r: Reply)
  {
    && r.Refuses? && r.lost.Fine? && r.renewed && r.errorClass != Terminal
    && r.outcome.effect == Some(Rejected) && r.outcome.cause == Auth && !r.outcome.requestScoped
       && r.outcome.recoverByRefresh
  }

  /** The request is answered and rendering ends with an error that wraps "no route". */
  predicate LeaksReply(r: Reply)
  {
    r.Answers? && !r.completes && r.trouble == Fails(true) && !r.cancelled
  }

  predicate RejectsRound(r: Round)
  {
    Sends(r) && RejectsReply(r.reply)
  }

  predicate LeaksRound(r: Round)
  {
    Sends(r) && LeaksReply(r.reply)
  }

  predicate Rejecting(v: VisitChoice)
  {
    Reached(v) && RejectsRound(v.first) && RejectsRound(v.second)
  }

  predicate Leaking(v: VisitChoice)
  {
    Reached(v) && LeaksRound(v.first)
  }

  /** Only the candidate is available, everything is tried, and nothing else goes wrong. */
  ghost predicate Insisting(world: World, id: string, leaking: bool)
  {
    && world.preparation.Fine?
    && (forall n, key, stack :: world.node(n, key, stack).transform.Fine?)
    && (forall n :: !world.member(n).cancelled && world.member(n).ranking == Unranked)
    && (forall n, c: Candidate :: if c.id != id then world.visit(n, c).gate.Skips?
                                  else if leaking then Leaking(world.visit(n, c)) else Rejecting(world.visit(n, c)))
  }

  /** Nodes that plan one member plan the heaviest. */
  ghost predicate PlansHeaviest(world: World, nodes: map<string, Node>, t: Tables, w: Candidate -> nat)
  {
    forall n, key, stack :: key in nodes && PlansOne(nodes[key]) ==>
      Strategies.Start(Strategies.RoundRobin, nodes[key].members, world.node(n, key, stack).state)
      == Heaviest(nodes, t, w, nodes[key], nodes[key].members, stack)
  }

  /** Nobody is available and nothing goes wrong, so a run only walks the graph. */
  ghost predicate Idle(world: World)
  {
    && world.preparation.Fine?
    && (forall n, key, stack :: world.node(n, key, stack).transform.Fine?)
    && (forall n :: !world.member(n).cancelled)
    && (forall n, c :: world.visit(n, c).gate.Skips?)
  }

  /** Nodes that plan one member plan one that leads to an open ID, if any does. */
  ghost predicate PlansMeeting(world: World, nodes: map<string, Node>)
  {
    forall n, key, stack :: key in nodes && PlansOne(nodes[key]) && AnyMeets(nodes, nodes[key].members, stack) ==>
      var start := Strategies.Start(Strategies.RoundRobin, nodes[key].members, world.node(n, key, stack).state);
      MemberMeets(nodes, nodes[key].members[start], stack)
  }

  /** An error that surfaces from a candidate ends its node, so in a leaking world a node
      with a candidate must have nothing else to try. */
  predicate OneCandidateANode(nodes: map<string, Node>, t: Tables)
  {
    forall k, m :: k in nodes && m in nodes[k].members && m.kind != Strategies.ModelMember ==>
      |nodes[k].members| == 1 && |Resolve(t, m)| <= 1
  }
}
