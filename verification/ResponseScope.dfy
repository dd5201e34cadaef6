/** The artifact budget of one response, raced by its own close. A put passes through
    several critical sections with the spool write in between; `Run` folds any
    interleaving of any number of puts, inline publications and the close. */
module ResponseScope {
  import opened Sums
  import opened Sets

  type Role = nat

  /** A spooled body: its store name and its size. */
  datatype Body = Body(id: nat, size: nat)

  /** How far one put has come: writing within its grant, written but not yet
      settled, counted and being validated, or left with a body to hand back. */
  datatype Phase = Writing | Spooled(body: Body) | Counted(body: Body) | Doomed(body: Body)

  datatype Put = Put(role: Role, grant: nat, phase: Phase)

  /** Where a body that was ever spooled is now. */
  datatype Place = InPut(p: nat) | Listed | Closing | Released

  /** `ports` holds each declared role's maximum count. `closing` are the bodies the
      close still has to hand back. `place`, `publishedBytes` and `published` are
      history: every body ever spooled, and what was published for good. */
  datatype State = State(
    maxBytes: nat, ports: map<Role, nat>, closed: bool, allowlistClosed: bool, used: int, pending: int,
      counts: map<Role, int>, puts: map<nat, Put>, artifacts: seq<Body>, allowed: set<nat>, closing: seq<Body>,
    place: map<Body, Place>, publishedBytes: nat, published: map<Role, nat>)

  function Init(maxBytes: nat, ports: map<Role, nat>): State
  {
    State(maxBytes, ports, false, false, 0, 0, map r | r in ports ::
      0, map[], [], {}, [], map[], 0, map r | r in ports :: 0)
  }

  // ----- Critical sections ----------------------------------------------------------

  /** A contract may narrow the type's input bound but never widen it. */
  function Wanted(maxBytes: int, typeBound: nat): nat
  {
    if maxBytes <= 0 || maxBytes > typeBound then typeBound else maxBytes
  }

  predicate Admits(s: State, role: Role)
    requires role in s.counts && role in s.ports
  {
    !s.closed && s.counts[role] + 1 <= s.ports[role] && s.maxBytes - s.used - s.pending > 0
  }

  function Grant(s: State, wanted: nat): nat
    requires s.maxBytes - s.used - s.pending > 0
  {
    if wanted > s.maxBytes - s.used - s.pending then s.maxBytes - s.used - s.pending else wanted
  }

  function Begin(s: State, p: nat, role: Role, wanted: nat): State
    requires role in s.counts && role in s.ports
  {
    if !Admits(s, role) then s
    else
      var grant := Grant(s, wanted);
      s.(counts := s.counts[role := s.counts[role] + 1], pending := s.pending + grant,
        puts := s.puts[p := Put(role, grant, Writing)])
  }

  /** The spool refused the body. */
  function Fail(s: State, p: nat): State
    requires p in s.puts && s.puts[p].role in s.counts
  {
    var w := s.puts[p];
    s.(pending := s.pending - w.grant, counts := s.counts[w.role := s.counts[w.role] - 1], puts := s.puts - {p})
  }

  /** The body is in the spool, but the scope does not know yet. */
  function Spool(s: State, p: nat, body: Body): State
    requires p in s.puts
  {
    s.(puts := s.puts[p := s.puts[p].(phase := Spooled(body))], place := s.place[body := InPut(p)])
  }

  function Settle(s: State, p: nat): State
    requires p in s.puts && s.puts[p].phase.Spooled? && s.puts[p].role in s.counts
  {
    var w := s.puts[p];
    var body := w.phase.body;
    if s.closed then
      s.(pending := s.pending - w.grant, counts := s.counts[w.role := s.counts[w.role] - 1],
        puts := s.puts[p := w.(phase := Doomed(body))])
    else
      s.(pending := s.pending - w.grant, used := s.used + body.size, puts := s.puts[p := w.(phase := Counted(body))])
  }

  /** Takes a counted body out of the account again: it failed validation, or the
      scope closed. */
  function Drop(s: State, p: nat): State
    requires p in s.puts && s.puts[p].phase.Counted? && s.puts[p].role in s.counts
  {
    var w := s.puts[p];
    s.(used := s.used - w.phase.body.size, counts := s.counts[w.role := s.counts[w.role] - 1],
       puts := s.puts[p := w.(phase := Doomed(w.phase.body))])
  }

  function Record(s: State, p: nat): State
    requires p in s.puts && s.puts[p].phase.Counted? && s.puts[p].role in s.counts && s.puts[p].role in s.published
  {
    var w := s.puts[p];
    var body := w.phase.body;
    if s.closed || s.allowlistClosed then Drop(s, p)
    else
      s.(artifacts := s.artifacts + [body], allowed := s.allowed + {body.id}, puts := s.puts - {p},
        place := s.place[body := Listed],
         publishedBytes := s.publishedBytes + body.size, published := s.published[w.role := s.published[w.role] + 1])
  }

  function HandBack(s: State, p: nat): State
    requires p in s.puts && s.puts[p].phase.Doomed?
  {
    s.(puts := s.puts - {p}, place := s.place[s.puts[p].phase.body := Released])
  }

  predicate AdmitsInline(s: State, role: Role, size: nat)
    requires role in s.counts && role in s.ports
  {
    !s.closed && s.counts[role] < s.ports[role] && size <= s.maxBytes - s.used - s.pending
  }

  function Inline(s: State, role: Role, size: nat): State
    requires role in s.counts && role in s.ports && role in s.published
  {
    if !AdmitsInline(s, role, size) then s
    else s.(counts := s.counts[role := s.counts[role] + 1], used := s.used + size,
            publishedBytes := s.publishedBytes + size, published := s.published[role := s.published[role] + 1])
  }

  function Close(s: State): State
  {
    if s.closed then s
    else s.(closed := true, allowlistClosed := true, allowed := {}, closing := s.artifacts, artifacts := [],
            place := map b | b in s.place :: if s.place[b] == Listed then Closing else s.place[b])
  }

  function CloseOne(s: State): State
    requires s.closing != []
  {
    s.(closing := s.closing[1..], place := s.place[s.closing[0] := Released])
  }

  // ----- Interleavings --------------------------------------------------------------

  datatype Action =
    | ABegin(p: nat, role: Role, wanted: nat)
    | AFail(p: nat)
    | ASpool(p: nat, body: Body)
    | ASettle(p: nat)
    | AInvalid(p: nat)
    | ARecord(p: nat)
    | AHandBack(p: nat)
    | AInline(role: Role, size: nat)
    | AClose
    | ACloseOne

  predicate At(s: State, p: nat)
  {
    p in s.puts && s.puts[p].role in s.counts && s.puts[p].role in s.published && s.puts[p].role in s.ports
  }

  predicate Declared(s: State, role: Role)
  {
    role in s.counts && role in s.published && role in s.ports
  }

  /** Program order, what the catalog demands of artifact types, whose input bounds are
      positive, and what the store promises: a body it returns is fresh and no longer than
      the grant it was asked to respect (`SpoolGrants`). */
  predicate Enabled(s: State, a: Action)
  {
    match a
    case ABegin(p, role, wanted) => p !in s.puts && Declared(s, role) && wanted > 0
    case AFail(p) => At(s, p) && s.puts[p].phase.Writing?
    case ASpool(p, body) => At(s, p) && s.puts[p].phase.Writing? && body.size <= s.puts[p].grant
      && forall b :: b in s.place ==> b.id != body.id
    case ASettle(p) => At(s, p) && s.puts[p].phase.Spooled?
    case AInvalid(p) => At(s, p) && s.puts[p].phase.Counted?
    case ARecord(p) => At(s, p) && s.puts[p].phase.Counted?
    case AHandBack(p) => At(s, p) && s.puts[p].phase.Doomed?
    case AInline(role, _) => Declared(s, role)
    case AClose => true
    case ACloseOne => s.closing != []
  }

  ghost function Step(s: State, a: Action): State
    requires Enabled(s, a)
  {
    match a
    case ABegin(p, role, wanted) => Begin(s, p, role, wanted)
    case AFail(p) => Fail(s, p)
    case ASpool(p, body) => Spool(s, p, body)
    case ASettle(p) => Settle(s, p)
    case AInvalid(p) => Drop(s, p)
    case ARecord(p) => Record(s, p)
    case AHandBack(p) => HandBack(s, p)
    case AInline(role, size) => Inline(s, role, size)
    case AClose => Close(s)
    case ACloseOne => CloseOne(s)
  }

  ghost function Run(s: State, actions: seq<Action>): State
    decreases |actions|
  {
    if actions == [] then s
    else if Enabled(s, actions[0]) then Run(Step(s, actions[0]), actions[1..])
    else Run(s, actions[1..])
  }

  // ----- The invariant --------------------------------------------------------------

  function GrantOf(w: Put): nat
  {
    if w.phase.Writing? || w.phase.Spooled? then w.grant else 0
  }

  function CountedOf(w: Put): nat
  {
    if w.phase.Counted? then w.phase.body.size else 0
  }

  function LiveOf(w: Put, role: Role): nat
  {
    if w.role == role && !w.phase.Doomed? then 1 else 0
  }

  function Grants(puts: map<nat, Put>): map<nat, nat>
  {
    map p | p in puts :: GrantOf(puts[p])
  }

  function CountedSizes(puts: map<nat, Put>): map<nat, nat>
  {
    map p | p in puts :: CountedOf(puts[p])
  }

  function Live(puts: map<nat, Put>, role: Role): map<nat, nat>
  {
    map p | p in puts :: LiveOf(puts[p], role)
  }

  ghost predicate Pending(pending: int, puts: map<nat, Put>)
  {
    pending == Sum(Grants(puts))
  }

  ghost predicate Used(used: int, puts: map<nat, Put>, publishedBytes: nat)
  {
    used == publishedBytes + Sum(CountedSizes(puts))
  }

  /** A role's count is what was published plus the puts still under way, and stays
      within the port's maximum. */
  ghost predicate RoleCount(s: State, r: Role)
  {
    Declared(s, r) && s.counts[r] == s.published[r] + Sum(Live(s.puts, r)) && s.counts[r] <= s.ports[r]
  }

  ghost predicate Counts(s: State)
  {
    (forall r :: r in s.ports ==> RoleCount(s, r)) && (forall p :: p in s.puts ==> s.puts[p].role in s.ports)
  }

  predicate Fits(s: State)
  {
    s.used + s.pending <= s.maxBytes
      && forall p :: p in s.puts && s.puts[p].phase.Spooled? ==> s.puts[p].phase.body.size <= s.puts[p].grant
  }

  function HeldBody(w: Put): Option<Body>
  {
    if w.phase.Writing? then None else Some(w.phase.body)
  }

  ghost predicate HeldByPuts(puts: map<nat, Put>, place: map<Body, Place>)
  {
    && (forall p ::
         p in puts && HeldBody(puts[p]).Some? ==>
           HeldBody(puts[p]).value in place && place[HeldBody(puts[p]).value] == InPut(p))
    && (forall b :: b in place && place[b].InPut? ==> place[b].p in puts && HeldBody(puts[place[b].p]) == Some(b))
  }

  ghost predicate Lists(bodies: seq<Body>, place: map<Body, Place>, there: Place)
  {
    && NoRepeats(bodies)
    && (forall b :: b in bodies ==> b in place && place[b] == there)
    && (forall b :: b in place && place[b] == there ==> b in bodies)
  }

  ghost function BodyIds(bodies: seq<Body>): set<nat>
  {
    set b | b in bodies :: b.id
  }

  ghost predicate Shut(s: State)
  {
    && s.allowlistClosed == s.closed
    && (if s.closed then s.artifacts == [] else s.closing == [])
    && s.allowed == BodyIds(s.artifacts)
  }

  ghost predicate Inv(s: State)
  {
    && Pending(s.pending, s.puts)
    && Used(s.used, s.puts, s.publishedBytes)
    && Counts(s)
    && Fits(s)
    && HeldByPuts(s.puts, s.place)
    && Lists(s.artifacts, s.place, Listed)
    && Lists(s.closing, s.place, Closing)
    && Shut(s)
  }

  // ----- Accounts under one change of a put ------------------------------------------

  lemma GrantsPut(puts: map<nat, Put>, p: nat, w: Put)
    ensures Sum(Grants(puts[p := w])) == Sum(Grants(puts)) - (if p in puts then GrantOf(puts[p]) else 0) + GrantOf(w)
  {
    SumUpdate(Grants(puts), p, GrantOf(w));
    assert Grants(puts[p := w]) == Grants(puts)[p := GrantOf(w)];
  }

  lemma GrantsGone(puts: map<nat, Put>, p: nat)
    requires p in puts
    ensures Sum(Grants(puts - {p})) == Sum(Grants(puts)) - GrantOf(puts[p])
    ensures GrantOf(puts[p]) <= Sum(Grants(puts))
  {
    SumRemove(Grants(puts), p);
    assert Grants(puts - {p}) == Grants(puts) - {p};
  }

  lemma CountedPut(puts: map<nat, Put>, p: nat, w: Put)
    ensures Sum(CountedSizes(puts[p := w])) ==
              Sum(CountedSizes(puts)) - (if p in puts then CountedOf(puts[p]) else 0) + CountedOf(w)
  {
    SumUpdate(CountedSizes(puts), p, CountedOf(w));
    assert CountedSizes(puts[p := w]) == CountedSizes(puts)[p := CountedOf(w)];
  }

  lemma CountedGone(puts: map<nat, Put>, p: nat)
    requires p in puts
    ensures Sum(CountedSizes(puts - {p})) == Sum(CountedSizes(puts)) - CountedOf(puts[p])
    ensures CountedOf(puts[p]) <= Sum(CountedSizes(puts))
  {
    SumRemove(CountedSizes(puts), p);
    assert CountedSizes(puts - {p}) == CountedSizes(puts) - {p};
  }

  lemma LivePut(puts: map<nat, Put>, role: Role, p: nat, w: Put)
    ensures Sum(Live(puts[p := w], role)) ==
              Sum(Live(puts, role)) - (if p in puts then LiveOf(puts[p], role) else 0) + LiveOf(w, role)
  {
    SumUpdate(Live(puts, role), p, LiveOf(w, role));
    assert Live(puts[p := w], role) == Live(puts, role)[p := LiveOf(w, role)];
  }

  lemma LiveGone(puts: map<nat, Put>, role: Role, p: nat)
    requires p in puts
    ensures Sum(Live(puts - {p}, role)) == Sum(Live(puts, role)) - LiveOf(puts[p], role)
    ensures LiveOf(puts[p], role) <= Sum(Live(puts, role))
  {
    SumRemove(Live(puts, role), p);
    assert Live(puts - {p}, role) == Live(puts, role) - {p};
  }

  /** The put a step works on. */
  function Subject(a: Action): nat
  {
    match a
    case ABegin(p, _, _) => p
    case AFail(p) => p
    case ASpool(p, _) => p
    case ASettle(p) => p
    case AInvalid(p) => p
    case ARecord(p) => p
    case AHandBack(p) => p
    case _ => 0
  }

  /** A step changes, adds or removes no put but its subject. */
  lemma StepTouchesOne(s: State, a: Action)
    requires Enabled(s, a)
    ensures var p, next := Subject(a), Step(s, a).puts;
            next == s.puts || (p in s.puts && next == s.puts - {p}) || (p in next && next == s.puts[p := next[p]])
  {
  }

  lemma StepPending(s: State, a: Action)
    requires Enabled(s, a) && Pending(s.pending, s.puts)
    ensures Pending(Step(s, a).pending, Step(s, a).puts)
  {
    hide Grants, Sum;
    var p, next := Subject(a), Step(s, a).puts;
    StepTouchesOne(s, a);
    if p in next {
      GrantsPut(s.puts, p, next[p]);
    }
    if p in s.puts {
      GrantsGone(s.puts, p);
    }
  }

  lemma StepUsed(s: State, a: Action)
    requires Enabled(s, a) && Used(s.used, s.puts, s.publishedBytes)
    ensures Used(Step(s, a).used, Step(s, a).puts, Step(s, a).publishedBytes)
  {
    hide CountedSizes, Sum;
    var p, next := Subject(a), Step(s, a).puts;
    StepTouchesOne(s, a);
    if p in next {
      CountedPut(s.puts, p, next[p]);
    }
    if p in s.puts {
      CountedGone(s.puts, p);
    }
  }

  lemma StepCount(s: State, a: Action, role: Role)
    requires Enabled(s, a) && Declared(s, role) && s.counts[role] == s.published[role] + Sum(Live(s.puts, role))
    ensures var t := Step(s, a); Declared(t, role) && t.counts[role] == t.published[role] + Sum(Live(t.puts, role))
  {
    hide Live, Sum;
    var p, next := Subject(a), Step(s, a).puts;
    StepTouchesOne(s, a);
    if p in next {
      LivePut(s.puts, role, p, next[p]);
    }
    if p in s.puts {
      LiveGone(s.puts, role, p);
    }
  }

  lemma StepKeepsCeilings(s: State, a: Action, role: Role)
    requires Enabled(s, a) && Declared(s, role) && s.counts[role] <= s.ports[role]
    ensures role in Step(s, a).counts && Step(s, a).ports == s.ports && Step(s, a).counts[role] <= s.ports[role]
  {
  }

  lemma StepRole(s: State, a: Action, role: Role)
    requires Enabled(s, a) && RoleCount(s, role)
    ensures RoleCount(Step(s, a), role)
  {
    StepCount(s, a, role);
    StepKeepsCeilings(s, a, role);
    hide Step, Live, Sum, Enabled;
  }

  lemma StepKeepsPorts(s: State, a: Action)
    requires Enabled(s, a)
    ensures Step(s, a).ports == s.ports
  {
  }

  lemma StepKeepsRoles(s: State, a: Action)
    requires Enabled(s, a) && forall p :: p in s.puts ==> s.puts[p].role in s.ports
    ensures forall p :: p in Step(s, a).puts ==> Step(s, a).puts[p].role in s.ports
  {
  }

  lemma StepCounts(s: State, a: Action)
    requires Enabled(s, a) && Counts(s)
    ensures Counts(Step(s, a))
  {
    hide RoleCount, Step, Enabled;
    StepKeepsPorts(s, a);
    StepKeepsRoles(s, a);
    forall role | role in s.ports
      ensures RoleCount(Step(s, a), role)
    {
      StepRole(s, a, role);
    }
  }

  lemma StepFits(s: State, a: Action)
    requires Enabled(s, a) && Fits(s)
    ensures Fits(Step(s, a)) && Step(s, a).maxBytes == s.maxBytes
  {
  }

  lemma CloseHeld(s: State)
    requires HeldByPuts(s.puts, s.place)
    ensures HeldByPuts(Close(s).puts, Close(s).place)
  {
  }

  lemma CloseOneHeld(s: State)
    requires HeldByPuts(s.puts, s.place) && Lists(s.closing, s.place, Closing) && s.closing != []
    ensures HeldByPuts(CloseOne(s).puts, CloseOne(s).place)
  {
  }

  lemma RecordHeld(s: State, p: nat)
    requires At(s, p) && s.puts[p].phase.Counted? && HeldByPuts(s.puts, s.place)
    ensures HeldByPuts(Record(s, p).puts, Record(s, p).place)
  {
  }

  /** A put that holds what it held before. */
  lemma PutHeld(puts: map<nat, Put>, place: map<Body, Place>, p: nat, w: Put)
    requires HeldByPuts(puts, place) && HeldBody(w) == if p in puts then HeldBody(puts[p]) else None
    ensures HeldByPuts(puts[p := w], place)
  {
  }

  lemma FailHeld(s: State, p: nat)
    requires At(s, p) && s.puts[p].phase.Writing? && HeldByPuts(s.puts, s.place)
    ensures HeldByPuts(Fail(s, p).puts, Fail(s, p).place)
  {
  }

  lemma SpoolHeld(s: State, p: nat, body: Body)
    requires At(s, p) && s.puts[p].phase.Writing? && HeldByPuts(s.puts, s.place) && body !in s.place
    ensures HeldByPuts(Spool(s, p, body).puts, Spool(s, p, body).place)
  {
  }

  lemma HandBackHeld(s: State, p: nat)
    requires At(s, p) && s.puts[p].phase.Doomed? && HeldByPuts(s.puts, s.place)
    ensures HeldByPuts(HandBack(s, p).puts, HandBack(s, p).place)
  {
  }

  lemma StepHeld(s: State, a: Action)
    requires Enabled(s, a) && HeldByPuts(s.puts, s.place) && Lists(s.closing, s.place, Closing)
    ensures HeldByPuts(Step(s, a).puts, Step(s, a).place)
  {
    hide HeldByPuts, Close, CloseOne, Record, Lists, Fail, Spool, HandBack, Admits, AdmitsInline;
    match a {
      case ABegin(p, role, wanted) =>
        if Admits(s, role) { PutHeld(s.puts, s.place, p, Begin(s, p, role, wanted).puts[p]); }
      case AFail(p) => FailHeld(s, p);
      case ASpool(p, body) => SpoolHeld(s, p, body);
      case ASettle(p) => PutHeld(s.puts, s.place, p, Settle(s, p).puts[p]);
      case AInvalid(p) => PutHeld(s.puts, s.place, p, Drop(s, p).puts[p]);
      case ARecord(p) => RecordHeld(s, p);
      case AHandBack(p) => HandBackHeld(s, p);
      case AInline(_, _) =>
      case AClose => CloseHeld(s);
      case ACloseOne => CloseOneHeld(s);
    }
  }

  lemma RecordListed(s: State, p: nat)
    requires At(s, p) && s.puts[p].phase.Counted? && HeldByPuts(s.puts, s.place) && Lists(s.artifacts, s.place, Listed)
    ensures Lists(Record(s, p).artifacts, Record(s, p).place, Listed)
  {
  }

  lemma CloseListed(s: State)
    requires Lists(s.artifacts, s.place, Listed)
    ensures Lists(Close(s).artifacts, Close(s).place, Listed)
  {
  }

  lemma StepListed(s: State, a: Action)
    requires Enabled(s, a) && HeldByPuts(s.puts, s.place) && Lists(s.artifacts, s.place, Listed)
               && Lists(s.closing, s.place, Closing)
    ensures Lists(Step(s, a).artifacts, Step(s, a).place, Listed)
  {
    hide Record, Close, NoRepeats;
    match a {
      case ARecord(p) => RecordListed(s, p);
      case AClose => CloseListed(s);
      case _ =>
    }
  }

  lemma StepClosing(s: State, a: Action)
    requires Enabled(s, a) && HeldByPuts(s.puts, s.place) && Lists(s.artifacts, s.place, Listed)
               && Lists(s.closing, s.place, Closing) && Shut(s)
    ensures Lists(Step(s, a).closing, Step(s, a).place, Closing)
  {
  }

  lemma StepShut(s: State, a: Action)
    requires Enabled(s, a) && Shut(s)
    ensures Shut(Step(s, a))
  {
  }

  lemma StepKeepsInv(s: State, a: Action)
    requires Inv(s) && Enabled(s, a)
    ensures Inv(Step(s, a))
  {
    StepPending(s, a);
    StepUsed(s, a);
    StepCounts(s, a);
    StepFits(s, a);
    StepHeld(s, a);
    StepListed(s, a);
    StepClosing(s, a);
    StepShut(s, a);
    hide Step, Enabled, Pending, Used, Counts, Fits, HeldByPuts, Lists, Shut;
  }

  // ----- Main results ---------------------------------------------------------------

  lemma InitIsSound(maxBytes: nat, ports: map<Role, nat>)
    ensures Inv(Init(maxBytes, ports))
  {
  }

  lemma {:induction false} RunKeepsInv(s: State, actions: seq<Action>)
    requires Inv(s)
    ensures Inv(Run(s, actions)) && Run(s, actions).maxBytes == s.maxBytes && Run(s, actions).ports == s.ports
    decreases |actions|
  {
    hide Inv, Step, Enabled;
    if actions != [] {
      if Enabled(s, actions[0]) {
        StepKeepsInv(s, actions[0]);
        StepKeepsPorts(s, actions[0]);
        StepKeepsLimit(s, actions[0]);
        RunKeepsInv(Step(s, actions[0]), actions[1..]);
      } else {
        RunKeepsInv(s, actions[1..]);
      }
    }
  }

  lemma StepKeepsLimit(s: State, a: Action)
    requires Enabled(s, a)
    ensures Step(s, a).maxBytes == s.maxBytes
  {
  }

  lemma NoNegativeAccount(s: State)
    requires Pending(s.pending, s.puts) && Used(s.used, s.puts, s.publishedBytes)
    ensures 0 <= s.pending && 0 <= s.used
  {
  }

  /** In every interleaving of puts, inline publications and close: bytes used and
      promised stay within the response's limit, and each role within its port. */
  lemma BudgetsHold(maxBytes: nat, ports: map<Role, nat>, actions: seq<Action>, role: Role)
    ensures var s := Run(Init(maxBytes, ports), actions);
            && 0 <= s.used && 0 <= s.pending && s.used + s.pending <= maxBytes
            && (role in ports ==> role in s.counts && 0 <= s.counts[role] <= ports[role])
  {
    InitIsSound(maxBytes, ports);
    RunKeepsInv(Init(maxBytes, ports), actions);
    var s := Run(Init(maxBytes, ports), actions);
    NoNegativeAccount(s);
    if role in ports {
      assert RoleCount(s, role);
    }
    hide Run, Pending, Used, HeldByPuts, Lists, Shut;
  }

  /** No leak and no double release: a body that was ever spooled is in exactly one
      place, and once the close and every put have returned that place is the
      store's release. */
  lemma NothingLeaks(maxBytes: nat, ports: map<Role, nat>, actions: seq<Action>, body: Body)
    ensures var s := Run(Init(maxBytes, ports), actions);
            body in s.place && s.closed && s.closing == [] && s.puts == map[] ==> s.place[body] == Released
  {
    InitIsSound(maxBytes, ports);
    RunKeepsInv(Init(maxBytes, ports), actions);
    hide Run, Pending, Used, Counts, Fits;
  }

  /** A body is released at most once: from then on no step touches it. */
  lemma ReleasedForGood(s: State, a: Action, body: Body)
    requires Inv(s) && Enabled(s, a) && body in s.place && s.place[body] == Released
    ensures body in Step(s, a).place && Step(s, a).place[body] == Released
    ensures a.AHandBack? ==> s.puts[a.p].phase.body != body
    ensures a.ACloseOne? ==> s.closing[0] != body
  {
    hide Pending, Used, Counts, Fits;
  }

  /** A response may read only bodies it recorded, and none after close. */
  lemma OnlyRecordedBodiesAreReadable(maxBytes: nat, ports: map<Role, nat>, actions: seq<Action>, id: nat)
    ensures var s := Run(Init(maxBytes, ports), actions);
            id in s.allowed ==>
              !s.closed && exists b :: b in s.artifacts && b.id == id && b in s.place && s.place[b] == Listed
  {
    InitIsSound(maxBytes, ports);
    RunKeepsInv(Init(maxBytes, ports), actions);
    hide Run, Pending, Used, Counts, Fits, HeldByPuts;
  }

  /** Recording fails on the allowlist only when the scope itself is closed. */
  lemma AllowlistNeverRefusesAlone(maxBytes: nat, ports: map<Role, nat>, actions: seq<Action>)
    ensures var s := Run(Init(maxBytes, ports), actions); s.allowlistClosed == s.closed
  {
    InitIsSound(maxBytes, ports);
    RunKeepsInv(Init(maxBytes, ports), actions);
    hide Run, Pending, Used, Counts, Fits, HeldByPuts, Lists;
  }
}
