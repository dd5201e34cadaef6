/** The scheduler's per-node strategy state: the in-place strategies are the functions of
    `Strategies`, each node's state lives under its own key, and the fairness of a node
    survives any interleaving with plans of other nodes. */
module StrategyScheduler {
  import opened Strategies
  import Names

  // ----- Which nodes share a state ------------------------------------------------------

  const NUL := '\U{0}'
  const STRATEGY_KIND := "strategy"

  datatype Ref = Ref(kind: string, id: string, version: nat)

  predicate Blank(s: string)
  {
    forall i :: 0 <= i < |s| ==> Names.Space(s[i])
  }

  predicate ValidRef(r: Ref)
  {
    && !Blank(r.kind) && !Blank(r.id) && r.version != 0
    && forall c :: c in r.kind + r.id ==> c != NUL && c != '\r' && c != '\n'
  }

  predicate StrategyRef(r: Ref)
  {
    ValidRef(r) && r.kind == STRATEGY_KIND
  }

  function Digits(n: nat): (s: string)
    ensures s != ""
  {
    if n < 10 then [(n + 48) as char] else Digits(n / 10) + [(n % 10 + 48) as char]
  }

  function RefKey(r: Ref): string
  {
    (r.kind + ":" + r.id) + ['@'] + Digits(r.version)
  }

  /** A node's state key; nodes with a proper strategy reference add its key. */
  function StateKey(nodeId: string, ref: Ref): string
  {
    if StrategyRef(ref) then nodeId + [NUL] + RefKey(ref) else nodeId
  }

  lemma {:induction false} DigitsAreDigits(n: nat)
    ensures forall c :: c in Digits(n) ==> '0' <= c <= '9'
  {
    if n >= 10 {
      DigitsAreDigits(n / 10);
    }
  }

  lemma {:induction false} DigitsTellNumbers(n: nat, m: nat)
    requires Digits(n) == Digits(m)
    ensures n == m
  {
    var x, y := Digits(n), Digits(m);
    assert x[|x| - 1] == y[|y| - 1];
    assert n % 10 == m % 10;
    if n >= 10 && m >= 10 {
      assert x[..|x| - 1] == Digits(n / 10) && y[..|y| - 1] == Digits(m / 10);
      DigitsTellNumbers(n / 10, m / 10);
    }
  }

  lemma LastSplitIsShortest(a: string, x: string, b: string, y: string, c: char)
    requires a + [c] + x == b + [c] + y && c !in y
    ensures |y| <= |x|
  {
    var s := a + [c] + x;
    assert s == b + [c] + y && s[|a|] == c;
    assert forall i :: |b| < i < |s| ==> s[i] == y[i - |b| - 1];
  }

  /** A text splits in one way at the last occurrence of a character. */
  lemma OneLastSplit(a: string, x: string, b: string, y: string, c: char)
    requires a + [c] + x == b + [c] + y && c !in x && c !in y
    ensures a == b && x == y
  {
    LastSplitIsShortest(a, x, b, y, c);
    LastSplitIsShortest(b, y, a, x, c);
    var s, t := a + [c] + x, b + [c] + y;
    assert a == s[..|a|] && b == t[..|b|] && x == s[|a| + 1..] && y == t[|b| + 1..];
  }

  lemma KeysHoldNoNul(r: Ref)
    requires StrategyRef(r)
    ensures NUL !in RefKey(r)
  {
    DigitsAreDigits(r.version);
    assert NUL !in r.kind + r.id && NUL !in r.kind && NUL !in r.id;
  }

  lemma KeysTellRefs(a: Ref, b: Ref)
    requires a.kind == b.kind && RefKey(a) == RefKey(b)
    ensures a == b
  {
    DigitsAreDigits(a.version);
    DigitsAreDigits(b.version);
    OneLastSplit(a.kind + ":" + a.id, Digits(a.version), b.kind + ":" + b.id, Digits(b.version), '@');
    DigitsTellNumbers(a.version, b.version);
    assert a.id == (a.kind + ":" + a.id)[|a.kind| + 1..] && b.id == (b.kind + ":" + b.id)[|b.kind| + 1..];
  }

  /** Two nodes share a state exactly when they are one node with one strategy, or when one
      has no proper strategy reference and its ID spells the other's ID and reference. */
  lemma SharedExactly(a: string, ra: Ref, b: string, rb: Ref)
    ensures StateKey(a, ra) == StateKey(b, rb) <==>
            if StrategyRef(ra) && StrategyRef(rb) then a == b && ra == rb
            else if StrategyRef(ra) then b == a + [NUL] + RefKey(ra)
            else if StrategyRef(rb) then a == b + [NUL] + RefKey(rb)
            else a == b
  {
    hide RefKey;
    if StrategyRef(ra) && StrategyRef(rb) && StateKey(a, ra) == StateKey(b, rb) {
      KeysHoldNoNul(ra);
      KeysHoldNoNul(rb);
      OneLastSplit(a, RefKey(ra), b, RefKey(rb), NUL);
      KeysTellRefs(ra, rb);
    }
  }

  /** Nodes with proper strategy references, the only ones an accepted configuration has,
      never share a state, whatever characters their IDs hold. */
  lemma AcceptedNodesNeverShare(a: string, ra: Ref, b: string, rb: Ref)
    requires StrategyRef(ra) && StrategyRef(rb) && (a, ra) != (b, rb)
    ensures StateKey(a, ra) != StateKey(b, rb)
  {
    hide StrategyRef, RefKey, StateKey;
    SharedExactly(a, ra, b, rb);
  }

  /** A node without a proper reference can share the state of another. */
  lemma ImproperReferenceMayShare()
    ensures exists a: string, ra: Ref, b: string, rb: Ref ::
              a != b && !StrategyRef(ra) && StrategyRef(rb) && StateKey(a, ra) == StateKey(b, rb)
  {
    hide RefKey;
    var proper, improper := Ref(STRATEGY_KIND, "w", 1), Ref("", "", 0);
    assert !Names.Space(STRATEGY_KIND[0]) && !Names.Space("w"[0]);
    assert proper.kind + proper.id == "strategyw";
    assert StrategyRef(proper) && !StrategyRef(improper);
    var spelled := "combo" + [NUL] + RefKey(proper);
    assert |spelled| > |"combo"|;
    assert StateKey(spelled, improper) == StateKey("combo", proper);
  }

  class StrategyState {
    var cursor: nat
    var stickyIndex: nat
    var stickyCount: nat
    var stickyLimit: int

    ghost function State(): State
      reads this
    {
      Strategies.State(cursor, stickyIndex, stickyCount)
    }

    constructor ()
      ensures State() == Strategies.State(0, 0, 0)
    {
      cursor, stickyIndex, stickyCount, stickyLimit := 0, 0, 0, 0;
    }

    method RotateMembers(members: seq<Member>, start: nat) returns (rotated: seq<Member>)
      requires start <= |members|
      ensures rotated == Rotate(members, start)
    {
      rotated := members[start..] + members[..start];
    }

    method PlanRoundRobin(members: seq<Member>) returns (planned: seq<Member>)
      modifies `cursor
      ensures planned == Plan(RoundRobin, members, old(State())) && State() == Next(RoundRobin, members, old(State()))
    {
      if |members| <= 1 {
        return members;
      }
      var index := cursor % |members|;
      cursor := (index + 1) % |members|;
      planned := [members[index]];
    }

    method PlanRotating(members: seq<Member>) returns (planned: seq<Member>)
      modifies `cursor
      ensures planned == Plan(Rotating, members, old(State())) && State() == Next(Rotating, members, old(State()))
    {
      if |members| < 2 {
        return members;
      }
      var start := cursor % |members|;
      cursor := (start + 1) % |members|;
      planned := RotateMembers(members, start);
    }

    method PlanSticky(members: seq<Member>) returns (planned: seq<Member>)
      modifies `stickyIndex, `stickyCount
      ensures planned == Plan(Sticky(stickyLimit), members, old(State()))
                && State() == Next(Sticky(stickyLimit), members, old(State()))
    {
      if |members| < 2 {
        return members;
      }
      var limit := stickyLimit;
      if limit < 1 {
        limit := 1;
      }
      var start := stickyIndex % |members|;
      stickyCount := stickyCount + 1;
      if stickyCount >= limit {
        stickyIndex := (start + 1) % |members|;
        stickyCount := 0;
      }
      planned := RotateMembers(members, start);
    }

    method TotalWeight(members: seq<Member>) returns (total: nat)
      ensures total == Total(members)
    {
      total := 0;
      for i := 0 to |members|
        invariant total == Total(members[..i])
      {
        assert members[..i + 1][..i] == members[..i];
        total := total + if members[i].weight < 1 then 1 else members[i].weight;
      }
      assert members[..|members|] == members;
    }

    method PlanWeighted(members: seq<Member>) returns (planned: seq<Member>)
      modifies `cursor
      ensures planned == Plan(Weighted, members, old(State())) && State() == Next(Weighted, members, old(State()))
    {
      hide Chosen, Total;
      if |members| < 2 {
        return members;
      }
      var total := TotalWeight(members);
      TotalIsPositive(members);
      var chosen := PickWeighted(members, cursor % total);
      cursor := (cursor + 1) % total;
      planned := RotateMembers(members, chosen);
    }

    /** Walks the wheel to the member whose stretch holds the point. */
    method PickWeighted(members: seq<Member>, start: nat) returns (chosen: nat)
      requires start < Total(members)
      ensures chosen == Chosen(members, start)
    {
      hide Chosen;
      var point, i := start, 0;
      chosen := 0;
      assert members[..|members|] == members;
      while i < |members|
        invariant 0 <= i <= |members|
        invariant 0 <= point && point + Total(members[..i]) == start
      {
        var weight := if members[i].weight < 1 then 1 else members[i].weight;
        assert members[..i + 1][..i] == members[..i];
        if point < weight {
          ChosenExactly(members, start, i);
          return i;
        }
        point := point - weight;
        i := i + 1;
      }
      assert false;
    }
  }

  // ----- The scheduler ------------------------------------------------------------------

  datatype Call = Call(key: string, strategy: Strategy, members: seq<Member>)

  type States = map<string, State>

  const ZERO := Strategies.State(0, 0, 0)

  function StateOf(states: States, key: string): State
  {
    if key in states then states[key] else ZERO
  }

  function After(states: States, calls: seq<Call>): States
  {
    if calls == [] then states
    else
      var before := After(states, calls[..|calls| - 1]);
      var call := calls[|calls| - 1];
      before[call.key := Next(call.strategy, call.members, StateOf(before, call.key))]
  }

  /** How many of the calls plan this node, and how many of those start with member i. */
  function Plans(calls: seq<Call>, key: string): nat
  {
    if calls == [] then 0 else Plans(calls[..|calls| - 1], key) + if calls[|calls| - 1].key == key then 1 else 0
  }

  function FirstIn(states: States, calls: seq<Call>, key: string, i: nat): nat
  {
    if calls == [] then 0
    else
      var front, call := calls[..|calls| - 1], calls[|calls| - 1];
      FirstIn(states, front, key, i)
      + if call.key == key && call.members != []
        && Start(call.strategy, call.members, StateOf(After(states, front), key)) == i then 1 else 0
  }

  /** Every plan of this node uses one configuration. */
  ghost predicate Configured(calls: seq<Call>, key: string, strategy: Strategy, members: seq<Member>)
  {
    forall k :: 0 <= k < |calls| && calls[k].key == key ==> calls[k].strategy == strategy && calls[k].members == members
  }

  /** A node's state is what its own plans made of it. */
  lemma {:induction false} OtherNodesDoNotDisturb(states: States, calls: seq<Call>, key: string, strategy: Strategy,
                                                  members: seq<Member>)
    requires Configured(calls, key, strategy, members)
    ensures StateOf(After(states, calls), key) == StateAfter(strategy, members, StateOf(states, key), Plans(calls, key))
    decreases |calls|
  {
    hide Next;
    if calls != [] {
      OtherNodesDoNotDisturb(states, calls[..|calls| - 1], key, strategy, members);
    }
  }

  /** In any interleaving a node's plans start as if it were planned alone. */
  lemma {:induction false} InterleavedStarts(states: States, calls: seq<Call>, key: string, strategy: Strategy,
                                             members: seq<Member>, i: nat)
    requires members != [] && Configured(calls, key, strategy, members)
    ensures FirstIn(states, calls, key, i) == TimesFirst(strategy, members, StateOf(states, key), Plans(calls, key), i)
    decreases |calls|
  {
    hide Next, Start;
    if calls != [] {
      var front := calls[..|calls| - 1];
      InterleavedStarts(states, front, key, strategy, members, i);
      OtherNodesDoNotDisturb(states, front, key, strategy, members);
    }
  }

  /** The weighted bound holds for each node whatever else the scheduler plans meanwhile. */
  lemma {:induction false} WeightedIsFairInAnyInterleaving(states: States, calls: seq<Call>, key: string,
                                                           members: seq<Member>, i: nat)
    requires i < |members| && Configured(calls, key, Weighted, members) && Plans(calls, key) == Total(members)
    ensures FirstIn(states, calls, key, i) == Weight(members[i])
  {
    InterleavedStarts(states, calls, key, Weighted, members, i);
    WeightedIsFair(members, StateOf(states, key), i);
  }

  lemma {:induction false} RotatingIsFairInAnyInterleaving(states: States, calls: seq<Call>, key: string,
                                                           members: seq<Member>, i: nat)
    requires i < |members| && Configured(calls, key, Rotating, members) && Plans(calls, key) == |members|
    ensures FirstIn(states, calls, key, i) == 1
  {
    InterleavedStarts(states, calls, key, Rotating, members, i);
    RotatingIsFair(members, StateOf(states, key), i);
  }

  /** Whatever is planned in between, each starter of an aligned node serves exactly
      `limit` of the node's own plans in a row, in configured order: the call that is its
      plan number `turn * limit + k` starts where turn `turn` does. */
  lemma {:induction false} StickyServesItsLimitInAnyInterleaving(states: States, calls: seq<Call>, key: string,
                                                                 members: seq<Member>, limit: int, turn: nat, k: nat)
    requires members != [] && Configured(calls, key, Sticky(limit), members) && Aligned(StateOf(states, key))
               && k < Limit(limit)
    requires calls != [] && calls[|calls| - 1].key == key
    requires Plans(calls[..|calls| - 1], key) == turn * Limit(limit) + k
    ensures Start(Sticky(limit), members, StateOf(After(states, calls[..|calls| - 1]), key))
            == (StateOf(states, key).stickyIndex + turn) % |members|
  {
    hide Next, Start;
    OtherNodesDoNotDisturb(states, calls[..|calls| - 1], key, Sticky(limit), members);
    StickyServesItsLimit(members, StateOf(states, key), limit, turn, k);
  }

  lemma OrderedPlans(members: seq<Member>)
    ensures forall s :: Plan(Ordered, members, s) == members && Next(Ordered, members, s) == s
  {
  }

  class Scheduler {
    var states: States

    constructor ()
      ensures states == map[]
    {
      states := map[];
    }

    /** Plans one node under its own key; every other node's state stays as it was. */
    method PlanNode(nodeId: string, ref: Ref, strategy: Strategy, members: seq<Member>) returns (planned: seq<Member>)
      modifies this
      ensures var key := StateKey(nodeId, ref);
              && planned == Plan(strategy, members, StateOf(old(states), key))
              && states == After(old(states), [Call(key, strategy, members)])
      ensures forall key ::
                key in old(states) && key != StateKey(nodeId, ref) ==> key in states && states[key] == old(states)[key]
    {
      hide Chosen, Total, Rotate, Start, StateKey, Plan, Next;
      OrderedPlans(members);
      var key := StateKey(nodeId, ref);
      if key !in states {
        states := states[key := ZERO];
      }
      var state := new StrategyState();
      state.cursor, state.stickyIndex, state.stickyCount :=
        states[key].cursor, states[key].stickyIndex, states[key].stickyCount;
      match strategy {
        case Ordered => planned := members;
        case RoundRobin => planned := state.PlanRoundRobin(members);
        case Rotating => planned := state.PlanRotating(members);
        case Weighted => planned := state.PlanWeighted(members);
        case Sticky(limit) =>
          state.stickyLimit := limit;
          planned := state.PlanSticky(members);
      }
      states := states[key := Strategies.State(state.cursor, state.stickyIndex, state.stickyCount)];
      assert [Call(key, strategy, members)][..0] == [];
    }
  }
}
