/** The built-in fallback strategies and their fairness: what any window of consecutive
    plans of one node starts with, and that plans of other nodes in between change
    nothing. */
module Strategies {

  datatype Fidelity = Exact | Alias | Compatible | Dynamic | Unset

  datatype MemberKind = ModelMember | RouteMember | RouteGroupMember | Untyped

  /** A member reference of a model node. */
  datatype Member = Member(kind: MemberKind, id: string, weight: int, fidelity: Fidelity, hasEvidence: bool)

  datatype State = State(cursor: nat, stickyIndex: nat, stickyCount: nat)

  datatype Strategy = Ordered | RoundRobin | Rotating | Sticky(limit: int) | Weighted

  // ----- Plans ------------------------------------------------------------------------

  function Rotate(members: seq<Member>, start: nat): seq<Member>
    requires start <= |members|
  {
    members[start..] + members[..start]
  }

  function Weight(m: Member): nat
  {
    if m.weight < 1 then 1 else m.weight
  }

  function Total(members: seq<Member>): nat
  {
    if members == [] then 0 else Total(members[..|members| - 1]) + Weight(members[|members| - 1])
  }

  /** The member whose stretch of the wheel holds the point. */
  function Chosen(members: seq<Member>, point: nat): (i: nat)
    requires point < Total(members)
    ensures i < |members| && Total(members[..i]) <= point < Total(members[..i + 1])
  {
    var n := |members| - 1;
    if point >= Total(members[..n]) then
      assert members[..n + 1] == members;
      n
    else
      var i := Chosen(members[..n], point);
      assert members[..n][..i] == members[..i] && members[..n][..i + 1] == members[..i + 1];
      i
  }

  function Limit(limit: int): nat
  {
    if limit < 1 then 1 else limit
  }

  lemma TotalIsPositive(members: seq<Member>)
    requires members != []
    ensures Total(members) > 0
  {
  }

  /** The member a plan starts with. */
  function Start(strategy: Strategy, members: seq<Member>, s: State): (i: nat)
    requires members != []
    ensures i < |members|
  {
    if |members| < 2 then 0
    else
      match strategy
      case Ordered => 0
      case RoundRobin => s.cursor % |members|
      case Rotating => s.cursor % |members|
      case Sticky(_) => s.stickyIndex % |members|
      case Weighted => TotalIsPositive(members); Chosen(members, s.cursor % Total(members))
  }

  function Plan(strategy: Strategy, members: seq<Member>, s: State): seq<Member>
  {
    if |members| < 2 then members
    else
      match strategy
      case Ordered => members
      case RoundRobin => [members[Start(strategy, members, s)]]
      case _ => Rotate(members, Start(strategy, members, s))
  }

  function Next(strategy: Strategy, members: seq<Member>, s: State): State
  {
    if |members| < 2 then s
    else
      match strategy
      case Ordered => s
      case RoundRobin => s.(cursor := (s.cursor % |members| + 1) % |members|)
      case Rotating => s.(cursor := (s.cursor % |members| + 1) % |members|)
      case Sticky(limit) =>
        if s.stickyCount + 1 >= Limit(limit)
          then s.(stickyIndex := (s.stickyIndex % |members| + 1) % |members|, stickyCount := 0)
        else s.(stickyCount := s.stickyCount + 1)
      case Weighted => TotalIsPositive(members); s.(cursor := (s.cursor + 1) % Total(members))
  }

  /** A fallback plan tries every configured member once, from its start around. */
  lemma FallbackPlansArePermutations(strategy: Strategy, members: seq<Member>, s: State)
    requires strategy != RoundRobin
    ensures multiset(Plan(strategy, members, s)) == multiset(members)
    ensures members != [] ==> Plan(strategy, members, s)[0] == members[Start(strategy, members, s)]
  {
    if |members| >= 2 {
      var i := Start(strategy, members, s);
      assert members == members[..i] + members[i..];
    }
  }

  // ----- Windows of consecutive plans -----------------------------------------------------

  function StateAfter(strategy: Strategy, members: seq<Member>, s: State, n: nat): State
  {
    if n == 0 then s else Next(strategy, members, StateAfter(strategy, members, s, n - 1))
  }

  /** The member the k-th of a run of plans starts with. */
  function StartAt(strategy: Strategy, members: seq<Member>, s: State, k: nat): nat
    requires members != []
  {
    Start(strategy, members, StateAfter(strategy, members, s, k))
  }

  /** How many of the first n plans start with member i. */
  function TimesFirst(strategy: Strategy, members: seq<Member>, s: State, n: nat, i: nat): nat
    requires members != []
  {
    if n == 0 then 0
    else TimesFirst(strategy, members, s, n - 1, i) + if StartAt(strategy, members, s, n - 1) == i then 1 else 0
  }

  function Overlap(a: int, b: int, lo: int, hi: int): nat
  {
    var from := if a > lo then a else lo;
    var to := if b < hi then b else hi;
    if to > from then to - from else 0
  }

  lemma MulGap(n: nat, a: int, b: int)
    requires a < b
    ensures n * b >= n * a + n
  {
    assert n * b == n * a + n * (b - a);
    MulAtLeast(n, b - a);
  }

  lemma MulAtLeast(n: nat, d: int)
    requires d >= 1
    ensures n * d >= n
  {
  }

  /** Quotient and remainder are unique. */
  lemma OneQuotient(n: nat, q: int, r: int, q': int, r': int)
    requires n * q + r == n * q' + r' && 0 <= r < n && 0 <= r' < n
    ensures q == q' && r == r'
  {
    if q < q' {
      MulGap(n, q, q');
    } else if q' < q {
      MulGap(n, q', q);
    }
  }

  lemma ModOf(n: nat, q: nat, r: nat)
    requires r < n
    ensures (n * q + r) % n == r
  {
    var x := n * q + r;
    OneQuotient(n, q, r, x / n, x % n);
  }

  lemma ModSmall(r: nat, n: nat)
    requires r < n
    ensures r % n == r
  {
    ModOf(n, 0, r);
    assert n * 0 + r == r;
  }

  lemma ModStep(c: nat, n: nat)
    requires n > 0
    ensures (c % n + 1) % n == (c + 1) % n
  {
    var q, r := c / n, c % n;
    assert c == n * q + r;
    if r + 1 == n {
      assert n * (q + 1) + 0 == n * q + n;
      ModOf(n, q + 1, 0);
      assert n * 1 + 0 == n;
      ModOf(n, 1, 0);
    } else {
      assert c + 1 == n * q + (r + 1);
      ModOf(n, q, r + 1);
      ModSmall(r + 1, n);
    }
  }

  /** A node with one member always plans it, from an unchanged state. */
  lemma {:induction false} OneMember(strategy: Strategy, members: seq<Member>, s: State, n: nat)
    requires |members| == 1
    ensures StateAfter(strategy, members, s, n) == s && StartAt(strategy, members, s, n) == 0
    ensures TimesFirst(strategy, members, s, n, 0) == n
  {
    if n > 0 {
      OneMember(strategy, members, s, n - 1);
    }
  }

  lemma OnlyRemainder(x: nat)
    ensures x % 1 == 0
  {
  }

  /** The wheel position of the k-th plan. */
  lemma {:induction false} WeightedPosition(members: seq<Member>, s: State, k: nat)
    requires |members| >= 2
    ensures Total(members) > 0 && StateAfter(Weighted, members, s, k).cursor % Total(members) ==
              (s.cursor + k) % Total(members)
  {
    TotalIsPositive(members);
    var t := Total(members);
    if k > 0 {
      WeightedPosition(members, s, k - 1);
      var c := StateAfter(Weighted, members, s, k - 1).cursor;
      ModStep(c, t);
      ModStep(s.cursor + k - 1, t);
      ModTwice(c + 1, t);
    }
  }

  lemma ModTwice(x: nat, n: nat)
    requires n > 0
    ensures (x % n) % n == x % n
  {
    ModSmall(x % n, n);
  }

  lemma {:induction false} PrefixTotals(members: seq<Member>, i: nat, j: nat)
    requires i <= j <= |members|
    ensures Total(members[..i]) <= Total(members[..j]) && (i < j ==> Total(members[..i]) < Total(members[..j]))
    decreases j
  {
    if i < j {
      assert members[..j][..j - 1] == members[..j - 1];
      PrefixTotals(members, i, j - 1);
    }
  }

  /** A point chooses member i exactly when it lies on its stretch. */
  lemma ChosenExactly(members: seq<Member>, point: nat, i: nat)
    requires point < Total(members) && i < |members|
    ensures Chosen(members, point) == i <==> Total(members[..i]) <= point < Total(members[..i + 1])
  {
    var j := Chosen(members, point);
    if j < i {
      PrefixTotals(members, j + 1, i);
    } else if i < j {
      PrefixTotals(members, i + 1, j);
    }
  }

  /** How much of a window starting at wheel position r lies on a stretch of the wheel or
      on its next turn. */
  function Covered(r: int, n: int, lo: int, hi: int, turn: int): nat
  {
    Overlap(r, r + n, lo, hi) + Overlap(r, r + n, lo + turn, hi + turn)
  }

  lemma CoverOneMore(r: int, n: int, lo: int, hi: int, turn: int)
    requires 0 <= lo < hi <= turn && 0 <= r < turn && 0 <= n && r + n < 2 * turn
    ensures var p := if r + n < turn then r + n else r + n - turn;
            Covered(r, n + 1, lo, hi, turn) == Covered(r, n, lo, hi, turn) + if lo <= p < hi then 1 else 0
  {
  }

  lemma CoverOneTurn(r: int, lo: int, hi: int, turn: int)
    requires 0 <= lo < hi <= turn && 0 <= r < turn
    ensures Covered(r, turn, lo, hi, turn) == hi - lo && Covered(r, 0, lo, hi, turn) == 0
  {
  }

  lemma Stretch(members: seq<Member>, i: nat)
    requires i < |members|
    ensures 0 <= Total(members[..i]) < Total(members[..i + 1]) <= Total(members)
    ensures Total(members[..i + 1]) - Total(members[..i]) == Weight(members[i])
  {
    PrefixTotals(members, i, i + 1);
    PrefixTotals(members, i + 1, |members|);
    assert members[..|members|] == members;
    assert members[..i + 1][..i] == members[..i];
  }

  /** While the window stays within one turn of the wheel, member i comes first as often as
      the window covers its stretch. */
  lemma {:induction false} CountWithinTurn(members: seq<Member>, s: State, n: nat, i: nat)
    requires |members| >= 2 && i < |members| && Total(members) > 0 && n <= Total(members)
    ensures TimesFirst(Weighted, members, s, n, i) ==
            Covered(s.cursor % Total(members), n, Total(members[..i]), Total(members[..i + 1]), Total(members))
    decreases n
  {
    hide Total, Chosen, Covered, StateAfter, Weight;
    var t, r := Total(members), s.cursor % Total(members);
    var lo, hi := Total(members[..i]), Total(members[..i + 1]);
    Stretch(members, i);
    if n == 0 {
      CoverOneTurn(r, lo, hi, t);
    } else {
      CountWithinTurn(members, s, n - 1, i);
      WeightedPosition(members, s, n - 1);
      PositionInWindow(s.cursor, t, n - 1);
      ChosenExactly(members, (s.cursor + (n - 1)) % t, i);
      CoverOneMore(r, n - 1, lo, hi, t);
    }
  }

  lemma PositionInWindow(c: nat, t: nat, k: nat)
    requires t > 0 && c % t + k < 2 * t
    ensures (c + k) % t == if c % t + k < t then c % t + k else c % t + k - t
  {
    var q := c / t;
    assert c == t * q + c % t;
    if c % t + k < t {
      ModOf(t, q, c % t + k);
    } else {
      assert t * (q + 1) == t * q + t;
      ModOf(t, q + 1, c % t + k - t);
    }
  }

  /** From any cursor, a window of total-weight plans puts each member first exactly as
      often as its weight, at least once. */
  lemma {:induction false} WeightedIsFair(members: seq<Member>, s: State, i: nat)
    requires i < |members|
    ensures TimesFirst(Weighted, members, s, Total(members), i) == Weight(members[i])
  {
    hide Total, Covered, Weight;
    TotalIsPositive(members);
    Stretch(members, i);
    if |members| == 1 {
      OneMember(Weighted, members, s, Total(members));
      OneWeight(members);
      return;
    }
    CountWithinTurn(members, s, Total(members), i);
    CoverOneTurn(s.cursor % Total(members), Total(members[..i]), Total(members[..i + 1]), Total(members));
  }

  lemma OneWeight(members: seq<Member>)
    requires |members| == 1
    ensures Total(members) == Weight(members[0])
  {
    assert members[..0] == [];
  }

  lemma {:induction false} RotatingPosition(members: seq<Member>, s: State, k: nat)
    requires |members| >= 2
    ensures StateAfter(Rotating, members, s, k).cursor % |members| == (s.cursor + k) % |members|
    ensures StateAfter(RoundRobin, members, s, k) == StateAfter(Rotating, members, s, k)
  {
    if k > 0 {
      RotatingPosition(members, s, k - 1);
      var c := StateAfter(Rotating, members, s, k - 1).cursor;
      ModStep(c, |members|);
      ModStep(s.cursor + k - 1, |members|);
      ModTwice(c % |members| + 1, |members|);
    }
  }

  lemma {:induction false} RotatingCount(members: seq<Member>, s: State, n: nat, i: nat)
    requires |members| >= 2 && i < |members| && n <= |members|
    ensures var r := s.cursor % |members|;
            TimesFirst(Rotating, members, s, n, i) == Covered(r, n, i, i + 1, |members|)
    decreases n
  {
    hide Covered, StateAfter;
    if n == 0 {
      CoverOneTurn(s.cursor % |members|, i, i + 1, |members|);
    } else {
      CoverOneMore(s.cursor % |members|, n - 1, i, i + 1, |members|);
      RotatingCount(members, s, n - 1, i);
      RotatingPosition(members, s, n - 1);
      PositionInWindow(s.cursor, |members|, n - 1);
    }
  }

  /** From any cursor, n consecutive plans of n members start with each exactly once. */
  lemma {:induction false} RotatingIsFair(members: seq<Member>, s: State, i: nat)
    requires i < |members|
    ensures TimesFirst(Rotating, members, s, |members|, i) == 1
  {
    if |members| == 1 {
      OneMember(Rotating, members, s, 1);
      return;
    }
    RotatingCount(members, s, |members|, i);
    CoverOneTurn(s.cursor % |members|, i, i + 1, |members|);
  }

  lemma SameStarts(members: seq<Member>, s: State, n: nat, i: nat)
    requires |members| >= 2
    ensures TimesFirst(RoundRobin, members, s, n, i) == TimesFirst(Rotating, members, s, n, i)
  {
    if n > 0 {
      SameStarts(members, s, n - 1, i);
      RotatingPosition(members, s, n - 1);
    }
  }

  lemma {:induction false} RoundRobinIsFair(members: seq<Member>, s: State, i: nat)
    requires i < |members|
    ensures TimesFirst(RoundRobin, members, s, |members|, i) == 1
  {
    if |members| == 1 {
      OneMember(RoundRobin, members, s, 1);
      return;
    }
    SameStarts(members, s, |members|, i);
    RotatingIsFair(members, s, i);
  }

  // ----- Stickiness -------------------------------------------------------------------------

  /** A starter that has just begun its turn. */
  predicate Aligned(s: State)
  {
    s.stickyCount == 0
  }

  lemma {:induction false} StickyWithinTurn(members: seq<Member>, s: State, limit: int, k: nat)
    requires |members| >= 2 && Aligned(s) && k < Limit(limit)
    ensures StateAfter(Sticky(limit), members, s, k) == s.(stickyCount := k)
  {
    if k > 0 {
      StickyWithinTurn(members, s, limit, k - 1);
    }
  }

  lemma StickyTurn(members: seq<Member>, s: State, limit: int)
    requires |members| >= 2 && Aligned(s)
    ensures StateAfter(Sticky(limit), members, s, Limit(limit)) ==
              s.(stickyIndex := (s.stickyIndex % |members| + 1) % |members|)
  {
    StickyWithinTurn(members, s, limit, Limit(limit) - 1);
  }

  lemma {:induction false} AfterAddsUp(strategy: Strategy, members: seq<Member>, s: State, a: nat, b: nat)
    ensures StateAfter(strategy, members, s, a + b) ==
              StateAfter(strategy, members, StateAfter(strategy, members, s, a), b)
    decreases b
  {
    hide Next;
    if b > 0 {
      AfterAddsUp(strategy, members, s, a, b - 1);
      assert a + b - 1 == a + (b - 1);
    }
  }

  /** After alignment each starter serves exactly `limit` consecutive plans, and the
      starters follow each other in configured order. */
  lemma {:induction false} StickyServesItsLimit(members: seq<Member>, s: State, limit: int, turn: nat, k: nat)
    requires members != [] && Aligned(s) && k < Limit(limit)
    ensures StartAt(Sticky(limit), members, s, turn * Limit(limit) + k) == (s.stickyIndex + turn) % |members|
    decreases turn
  {
    var l := Limit(limit);
    if |members| == 1 {
      OneMember(Sticky(limit), members, s, turn * l + k);
      OnlyRemainder(s.stickyIndex + turn);
    } else if turn == 0 {
      StickyWithinTurn(members, s, limit, k);
    } else {
      var next := StateAfter(Sticky(limit), members, s, l);
      StickyTurn(members, s, limit);
      StickyServesItsLimit(members, next, limit, turn - 1, k);
      assert turn * l + k == l + ((turn - 1) * l + k);
      AfterAddsUp(Sticky(limit), members, s, l, (turn - 1) * l + k);
      ModStep(s.stickyIndex, |members|);
      ModShift(s.stickyIndex + 1, turn - 1, |members|);
    }
  }

  lemma ModShift(a: nat, b: nat, n: nat)
    requires n > 0
    ensures (a % n + b) % n == (a + b) % n
  {
    if b == 0 {
      ModTwice(a, n);
    } else {
      ModShift(a, b - 1, n);
      ModStep(a % n + (b - 1), n);
      ModStep(a + (b - 1), n);
    }
  }

  /** From any state alignment comes after at most `limit` plans, all with one starter. A
      node with one member plans it without counting. */
  lemma {:induction false} StickyAligns(members: seq<Member>, s: State, limit: int) returns (n: nat)
    requires members != []
    ensures n == (if s.stickyCount < Limit(limit) then Limit(limit) - s.stickyCount else 1)
    ensures |members| >= 2 ==> Aligned(StateAfter(Sticky(limit), members, s, n))
    ensures forall k :: 0 <= k < n ==> StartAt(Sticky(limit), members, s, k) == s.stickyIndex % |members|
    decreases if Limit(limit) > s.stickyCount then Limit(limit) - s.stickyCount else 0
  {
    if |members| == 1 {
      n := if s.stickyCount < Limit(limit) then Limit(limit) - s.stickyCount else 1;
      OnlyRemainder(s.stickyIndex);
      forall k | 0 <= k < n
        ensures StartAt(Sticky(limit), members, s, k) == 0
      {
        OneMember(Sticky(limit), members, s, k);
      }
    } else if s.stickyCount + 1 >= Limit(limit) {
      n := 1;
      assert StateAfter(Sticky(limit), members, s, 0) == s;
    } else {
      hide StateAfter;
      var rest := StickyAligns(members, Next(Sticky(limit), members, s), limit);
      n := AddOne(members, s, limit, rest);
    }
  }

  lemma AddOne(members: seq<Member>, s: State, limit: int, rest: nat) returns (n: nat)
    requires |members| >= 2 && s.stickyCount + 1 < Limit(limit) && 1 <= rest
    requires var next := Next(Sticky(limit), members, s);
             Aligned(StateAfter(Sticky(limit), members, next, rest))
             && forall k :: 0 <= k < rest ==> StartAt(Sticky(limit), members, next, k) == next.stickyIndex % |members|
    ensures n == rest + 1 && Aligned(StateAfter(Sticky(limit), members, s, n))
    ensures forall k :: 0 <= k < n ==> StartAt(Sticky(limit), members, s, k) == s.stickyIndex % |members|
  {
    var strategy := Sticky(limit);
    var next := Next(strategy, members, s);
    n := rest + 1;
    assert StateAfter(strategy, members, s, 1) == next by {
      assert StateAfter(strategy, members, s, 0) == s;
    }
    AfterAddsUp(strategy, members, s, 1, rest);
    forall k | 0 <= k < n
      ensures StartAt(strategy, members, s, k) == s.stickyIndex % |members|
    {
      if k > 0 {
        AfterAddsUp(strategy, members, s, 1, k - 1);
        assert StartAt(strategy, members, next, k - 1) == next.stickyIndex % |members|;
      }
    }
  }
}
