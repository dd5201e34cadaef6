/** The data plane: recursive fallback over model nodes, members, ranked routes and
    in-place retries. What adapters, credentials, transforms, gates, rankers and clocks
    do is the `World`, a parameter; every decision the kernel takes on their answers is
    the source's. The contracts say that any run, in whatever world, leaves a trace that
    is `Good`, and how many requests a candidate can get from it. */
module Dispatch {
  import opened Sums
  import opened Replay
  import opened DispatchTrace
  import opened Usage
  import opened Snapshots
  import opened Worlds
  import Strategies
  import GraphWalk
  import Sets

  /** What survives from one request of a visit to its in-place retry. */
  datatype RetryState = RetryState(refreshed: bool, keyed: bool, first: Option<int>, replay: bool, verb: string,
    url: string, media: string)

  const FIRST_TRY := RetryState(false, false, None, false, "", "", "")

  /** The retry state after the requests `sent` of this visit: an in-place retry is
      under way only on a confirmed rejection or under a live idempotency key. */
  ghost predicate Ready(safety: Safety, key: Option<Key>, c: Candidate, visit: nat, st: RetryState, sent: seq<Dispatch>)
  {
    && (sent == [] ==> !st.refreshed && !st.keyed && st.first.None?)
    && |sent| <= 1
    && (sent != [] ==>
          var d := sent[0];
          && d.visit == visit && d.candidate == c.id && d.key == key && !d.leaked
          && (if st.keyed then
                && safety == WithKey && key.Some? && st.replay && st.first == Some(d.at)
                && d.verb == st.verb && d.url == st.url && d.media == st.media
                && d.answer != Classified(Accepted) && !d.answer.Rendered?
              else
                st.refreshed && ConfirmedRejection(safety, d)))
  }

  /** The requests of one visit. */
  ghost predicate VisitOk(safety: Safety, visit: nat, sent: seq<Dispatch>)
  {
    && |sent| <= 2 && (forall i :: 0 <= i < |sent| ==> sent[i].visit == visit && !sent[i].leaked)
    && (|sent| == 2 ==> Retried(safety, sent[0], sent[1]))
  }

  lemma SentOnce(safety: Safety, key: Option<Key>, c: Candidate, st: RetryState, sent: seq<Dispatch>, d: Dispatch,
                 fin: Finalization, base: nat)
    requires Ready(safety, key, c, d.visit, st, sent)
    requires d.candidate == c.id && d.key == key && !d.leaked
    requires st.keyed ==> d.verb == st.verb && d.url == st.url && d.media == st.media
                          && PermitsReplay(key.value.policy, st.first, d.at)
    requires fin.attempt == base
    requires fin.status == Ok ==> d.answer == Rendered(true, true)
    requires fin.status == Error ==> d.answer != Rendered(true, true)
    ensures VisitOk(safety, d.visit, sent + [d]) && FinalizedOnce([d], [fin], base)
  {
    if sent != [] {
      assert (sent + [d])[0] == sent[0];
      if st.keyed {
        RetentionWindowIsExact(key.value.policy, st.first.value, d.at);
      }
    }
  }

  lemma FirstTryIsReady(safety: Safety, key: Option<Key>, c: Candidate, visit: nat)
    ensures Ready(safety, key, c, visit, FIRST_TRY, [])
  {
  }

  lemma NothingFinalized(base: nat)
    ensures FinalizedOnce([], [], base)
  {
  }

  lemma RejectedIsContinuable(safety: Safety, sent: seq<Dispatch>, d: Dispatch)
    requires ConfirmedRejection(safety, d)
    ensures Continuable(safety, sent + [d])
  {
  }

  lemma RetryIsReady(safety: Safety, key: Option<Key>, c: Candidate, frozen: RetryState, retry: RetryState, d: Dispatch)
    requires d.candidate == c.id && d.key == key && !d.leaked && !d.answer.Rendered? && d.answer != Classified(Accepted)
    requires key.Some? ==> safety == WithKey
    requires !frozen.keyed && retry == frozen.(refreshed := retry.refreshed, keyed := retry.keyed)
    requires retry.keyed ==> key.Some? && frozen.replay && frozen.first == Some(d.at)
    requires retry.keyed ==> d.verb == frozen.verb && d.url == frozen.url && d.media == frozen.media
    requires !retry.keyed ==> retry.refreshed && ConfirmedRejection(safety, d)
    ensures Ready(safety, key, c, d.visit, retry, [d])
  {
  }

  lemma ReadyFacts(safety: Safety, key: Option<Key>, c: Candidate, visit: nat, st: RetryState, sent: seq<Dispatch>)
    requires Ready(safety, key, c, visit, st, sent)
    requires key.Some? ==> safety == WithKey
    ensures st.keyed ==> key.Some? && st.first.Some? && st.replay
    ensures st.refreshed && key.Some? ==> st.keyed
    ensures !st.refreshed && !st.keyed ==> sent == [] && st.first.None?
    ensures !st.keyed ==> Continuable(safety, sent)
    ensures VisitOk(safety, visit, sent)
  {
  }

  ghost function Leak(sent: seq<Dispatch>, leak: bool): seq<Dispatch>
  {
    if sent == [] then [] else sent[..|sent| - 1] + [sent[|sent| - 1].(leaked := leak)]
  }

  lemma LeakedTrace(safety: Safety, visit: nat, sent: seq<Dispatch>, leak: bool)
    requires VisitOk(safety, visit, sent)
    ensures TraceOk(safety, Leak(sent, leak)) && InVisits(Leak(sent, leak), visit, visit + 1)
  {
    var t := Leak(sent, leak);
    if |sent| == 2 {
      assert Retried(safety, t[0], t[1]);
      hide Retried;
      assert Linked(safety, t[0], t[1]);
    }
  }

  lemma LeakedEnd(safety: Safety, visit: nat, sent: seq<Dispatch>, leak: bool, next: bool)
    requires VisitOk(safety, visit, sent) && (next ==> Continuable(safety, sent) && !leak)
    ensures next || leak ==> Continuable(safety, Leak(sent, leak))
    ensures !leak ==> Unleaked(Leak(sent, leak)) && Leak(sent, leak) == sent
    ensures Leak(sent, false) == sent
  {
    hide Retried, ConfirmedRejection;
  }

  lemma LeakedFinalized(sent: seq<Dispatch>, fin: seq<Finalization>, base: nat, leak: bool)
    requires FinalizedOnce(sent, fin, base)
    ensures FinalizedOnce(Leak(sent, leak), fin, base)
  {
  }

  lemma OneAdmission(visit: nat)
    ensures Increasing([visit], visit, visit + 1) && Increasing([], visit, visit + 1)
  {
  }

  lemma SentByTheVisit(sent: seq<Dispatch>, visit: nat)
    requires InVisits(sent, visit, visit + 1)
    ensures SentWhileAdmitted(sent, [visit])
  {
  }

  /** One visit is a good stretch of a run, whether it goes on, ends, or leaks. */
  lemma VisitIsGood(safety: Safety, mayWrap: bool, visit: nat, sent: seq<Dispatch>, fin: seq<Finalization>, base: nat,
                    leak: bool, next: bool)
    requires VisitOk(safety, visit, sent) && FinalizedOnce(sent, fin, base)
    requires next ==> Continuable(safety, sent) && !leak
    requires leak ==> mayWrap
    ensures Good(safety, mayWrap, Log(Leak(sent, leak), [visit], [visit], fin), visit, visit + 1, base, next || leak)
    ensures Leak(sent, false) == sent
  {
    hide VisitOk, Leak, TraceOk, InVisits, Continuable, Unleaked, Increasing, FinalizedOnce;
    LeakedTrace(safety, visit, sent, leak);
    LeakedEnd(safety, visit, sent, leak, next);
    LeakedFinalized(sent, fin, base, leak);
    SentByTheVisit(Leak(sent, leak), visit);
    hide SentWhileAdmitted;
    OneAdmission(visit);
  }

  lemma EmptyIsGood(safety: Safety, mayWrap: bool, visit: nat, base: nat)
    ensures Good(safety, mayWrap, EMPTY, visit, visit, base, true) && forall log :: Append(log, EMPTY) == log
  {
  }

  lemma NothingSentIsGood(safety: Safety, mayWrap: bool, visit: nat, base: nat, goesOn: bool)
    ensures Good(safety, mayWrap, Log([], [visit], [visit], []), visit, visit + 1, base, goesOn)
    ensures Good(safety, mayWrap, EMPTY, visit, visit + 1, base, goesOn)
  {
    hide Retried, ConfirmedRejection, Linked, Increasing;
    OneAdmission(visit);
  }

  /** How one candidate visit ends: go on to the next candidate, or return from
      the node. */
  datatype Step = Next(failure: Option<(ErrorClass, Err)>) | Return(outcome: Result)

  datatype Result = Done | Failed(err: Err)

  predicate GoesOn(r: Result)
  {
    r.Failed? && IsNoRoute(r.err)
  }

  /** How a node ends. The last two are the walk's own errors. */
  datatype NodeEnd = Ended(result: Result) | CycleMet(id: string) | NodeMissing(id: string)

  predicate FallsBack(end: NodeEnd)
  {
    end.Ended? && GoesOn(end.result)
  }

  lemma GoodMayStop(safety: Safety, mayWrap: bool, log: Log, lo: nat, hi: nat, base: nat, goesOn: bool)
    requires Good(safety, mayWrap, log, lo, hi, base, true)
    ensures Good(safety, mayWrap, log, lo, hi, base, goesOn)
  {
  }

  /** The visit goes on to the next candidate without a terminal failure. */
  predicate MovesOn(step: Step)
  {
    step.Next? && (step.failure.Some? ==> step.failure.value.0 != Terminal)
  }

  // ----- When an error answer is retried in place ---------------------------------------

  predicate LiveKey(key: Option<Key>, st: RetryState, now: int)
  {
    key.Some? && st.replay && !st.keyed && PermitsReplay(key.value.policy, st.first, now)
  }

  /** An unknown effect the provider asks to retry later, under a live key. */
  predicate AsksAgain(key: Option<Key>, st: RetryState, r: Reply)
    requires r.Refuses?
  {
    r.lost.Fine? && LiveKey(key, st, r.now) && EffectOf(r.status, r.outcome) == Unknown && r.outcome.retry == RetryAfter
  }

  predicate AuthFailureOf(c: Candidate, outcome: Outcome)
  {
    outcome.cause == Auth && !outcome.requestScoped && outcome.recoverByRefresh && c.recoverByRefresh
  }

  /** A first authentication failure of the connection whose credential came back
      changed, when the operation may be sent again or a key is live. */
  predicate Refreshes(safety: Safety, canRefresh: bool, c: Candidate, key: Option<Key>, st: RetryState, r: Reply)
    requires r.Refuses?
  {
    var effect := EffectOf(r.status, r.outcome);
    && r.lost.Fine? && AuthFailureOf(c, r.outcome) && !st.refreshed && canRefresh && r.renewed
    && effect != Accepted && (CanReplayAfterDispatch(safety, effect)
         || (safety == WithKey && LiveKey(key, st, r.later)))
  }

  class Execution {
    const safety: Safety
    const clientKey: string
    const nodes: map<string, Node>
    const tables: Tables
    const canRefresh: bool
    const mayWrap: bool
    const world: World
    const sink: UsageSink
    var dispatches: seq<Dispatch>
    var acquired: seq<nat>
    var released: seq<nat>
    var visits: nat
    var turns: nat
    var stack: set<string>

    /** The candidate whose requests the contracts count: any, since nothing the run does
        depends on it. */
    ghost const watched: string
    ghost const leaking: bool

    ghost predicate Valid()
      reads this, sink
    {
      sink.Valid() && acquired == released
    }

    ghost function Snapshot(): Log
      reads this, sink
    {
      Log(dispatches, acquired, released, sink.emitted)
    }

    /** The run grew by exactly this stretch. */
    twostate predicate Grew(log: Log)
      reads this, sink
    {
      Snapshot() == Append(old(Snapshot()), log)
    }

    ghost function Weight(): Candidate -> nat
    {
      Share(safety, canRefresh, watched)
    }

    /** The world keeps sending the run back to the watched candidate, over an accepted
        snapshot: by confirmed rejections, or by errors that wrap "no route". */
    ghost predicate Steady()
    {
      && Insisting(world, watched, leaking) && PlansHeaviest(world, nodes, tables, Weight()) && AllBuiltIn(nodes)
      && GraphWalk.Resolved(References(nodes)) && (forall root :: IdsTellPathsApart(nodes, root))
      && if leaking then mayWrap && (safety == Never || safety == BeforeDispatch) && OneCandidateANode(nodes, tables)
         else safety == OnRejection
    }

    /** Nobody is available, so the run walks the snapshot to its end or to an open ID. */
    ghost predicate Quiet()
    {
      Idle(world) && PlansMeeting(world, nodes) && AllBuiltIn(nodes) && GraphWalk.Resolved(References(nodes))
    }

    /** The watched candidate got at most `load` requests, and exactly that many in a
        steady world. */
    ghost predicate Counts(log: Log, load: nat)
    {
      && (AllBuiltIn(nodes) ==> Requests(log.dispatches, watched) <= load)
      && (Steady() ==> Requests(log.dispatches, watched) == load)
    }

    constructor (safety: Safety, clientKey: string, nodes: map<string, Node>, tables: Tables, canRefresh: bool,
                 mayWrap: bool, world: World, sink: UsageSink, ghost watched: string, ghost leaking: bool)
      requires sink.Valid()
      ensures Valid() && dispatches == [] && acquired == [] && visits == 0 && stack == {}
      ensures this.safety == safety && this.nodes == nodes && this.tables == tables && this.canRefresh == canRefresh
      ensures this.mayWrap == mayWrap && this.world == world && this.sink == sink && this.watched == watched
                && this.leaking == leaking
    {
      this.safety, this.clientKey, this.nodes, this.tables := safety, clientKey, nodes, tables;
      this.canRefresh, this.mayWrap, this.world, this.sink := canRefresh, mayWrap, world, sink;
      this.watched, this.leaking := watched, leaking;
      dispatches, acquired, released, visits, turns, stack := [], [], [], 0, 0, {};
    }

    // ----- Errors of other components --------------------------------------------

    /** An error of some other component. Only where the run may meet such errors does
        one wrap "no route". */
    function Foreign(wraps: bool): (e: Err)
      ensures IsNoRoute(e) ==> mayWrap
    {
      Other(wraps && mayWrap)
    }

    function Raised(t: Trouble): (e: Option<Err>)
      ensures e.Some? <==> t.Fails?
      ensures e.Some? && IsNoRoute(e.value) ==> mayWrap
    {
      match t
      case Fine => None
      case Fails(wraps) => Some(Foreign(wraps))
    }

    /** Transforms, session restore, eligibility and adapter choice come before
        admission and send nothing; they may pass, skip the candidate, skip it
        with a failure, or end the node. A candidate that does not serve the operation
        is skipped. */
    function Preflight(c: Candidate, gate: Gate): (step: Option<Step>)
      ensures !c.serves && !gate.Aborts? ==> step.Some?
      ensures step.Some? && step.value.Return? ==>
                step.value.outcome.Failed? && (IsNoRoute(step.value.outcome.err) ==> mayWrap)
      ensures step.Some? && step.value.Next? ==> MovesOn(step.value)
    {
      match gate
      case Aborts(wraps) => Some(Return(Failed(Foreign(wraps))))
      case Skips => Some(Next(None))
      case SkipsWith(wraps) => Some(Next(if c.serves then Some((CapabilityClass, Foreign(wraps))) else None))
      case Passes => if c.serves then None else Some(Next(None))
    }

    // ----- Admission ---------------------------------------------------------------

    method Acquire(visit: nat)
      requires acquired == released
      modifies `acquired
      ensures acquired == old(acquired) + [visit]
    {
      acquired := acquired + [visit];
    }

    method Release(visit: nat)
      requires acquired == released + [visit]
      modifies `released
      ensures released == old(released) + [visit]
    {
      released := released + [visit];
    }

    /** Sends the request; only an admitted visit may send. */
    method Send(d: Dispatch)
      requires acquired == released + [d.visit]
      modifies `dispatches
      ensures dispatches == old(dispatches) + [d]
    {
      dispatches := dispatches + [d];
    }

    /** Records what came of the last request. */
    method Note(answer: Answer)
      requires dispatches != []
      modifies `dispatches
      ensures dispatches == old(dispatches)[..|old(dispatches)| - 1]
                + [old(dispatches)[|old(dispatches)| - 1].(answer := answer)]
    {
      var last := |dispatches| - 1;
      dispatches := dispatches[..last] + [dispatches[last].(answer := answer)];
    }

    /** An error leaves the visit after the upstream was reached. */
    method Surface(e: Err)
      requires dispatches != []
      modifies `dispatches
      ensures dispatches == old(dispatches)[..|old(dispatches)| - 1]
                + [old(dispatches)[|old(dispatches)| - 1].(leaked := IsNoRoute(e))]
    {
      var last := |dispatches| - 1;
      dispatches := dispatches[..last] + [dispatches[last].(leaked := IsNoRoute(e))];
    }

    // ----- One candidate visit ------------------------------------------------------

    method StampKey(upstream: Upstream, key: Option<Key>) returns (stamped: Upstream)
      ensures stamped == if key.Some?
                         then upstream.(headers := SetHeader(upstream.headers, key.value.policy.header,
                           key.value.clientKey))
                         else upstream
    {
      stamped := upstream;
      if key.Some? {
        stamped := stamped.(headers := SetHeader(stamped.headers, key.value.policy.header, key.value.clientKey));
      }
    }

    /** The last gate before the wire: cancellation, an unchanged action on a keyed
        retry, live credential authority, and the retention window. */
    method CheckDispatch(st: RetryState, key: Option<Key>, upstream: Upstream, round: Round) returns (err: Option<Err>)
      requires st.keyed ==> key.Some? && st.first.Some?
      ensures err.Some? && IsNoRoute(err.value) ==> mayWrap
      ensures err.None? <==>
                && !round.cancelled && round.authority.Fine?
                && (st.keyed ==>
                     && upstream.verb == st.verb && upstream.url == st.url && MediaType(upstream.headers) == st.media
                                 && PermitsReplay(key.value.policy, st.first, round.now))
    {
      if round.cancelled {
        return Some(Canceled);
      }
      if st.keyed && (upstream.verb != st.verb || upstream.url != st.url || MediaType(upstream.headers) != st.media) {
        return Some(Suppressed(Unknown, Other(false)));
      }
      err := Raised(round.authority);
      if err.None? && st.keyed && !PermitsReplay(key.value.policy, st.first, round.now) {
        return Some(Suppressed(Unknown, Other(false)));
      }
    }

    /** An answer with an error status, as classified: retry in place, go on, or
        stop. The result is None when the visit does not retry. */
    method HandleErrorStatus(node: Node, c: Candidate, key: Option<Key>, st: RetryState, r: Reply)
      returns (effect: Effect, retry: Option<RetryState>, step: Step)
      requires r.Refuses?
      requires key.Some? ==> safety == WithKey
      requires (st.refreshed && key.Some? ==> st.keyed) && (st.keyed ==> key.Some?)
      ensures effect == EffectOf(r.status, r.outcome)
      ensures retry.Some? <==> AsksAgain(key, st, r) || Refreshes(safety, canRefresh, c, key, st, r)
      ensures retry.Some? ==> !st.refreshed && !st.keyed && effect != Accepted
      ensures retry.Some? ==> retry.value == st.(keyed := key.Some?, refreshed := !AsksAgain(key, st, r))
      ensures retry.Some? && retry.value.keyed ==> st.replay
      ensures retry.Some? && !retry.value.keyed ==> CanReplayAfterDispatch(safety, effect)
      ensures retry.None? ==>
                (step.Next? <==>
                  r.lost.Fine? && CanReplayAfterDispatch(safety, effect)
                    && !(r.errorClass == Terminal && Stops(node, Terminal, r.stops)))
      ensures retry.None? && step.Next? ==> step.failure == Some((r.errorClass, Other(false)))
      ensures retry.None? && step.Return? ==> step.outcome.Failed? && (IsNoRoute(step.outcome.err) ==> mayWrap)
      ensures retry.None? && r.lost.Fine? && !CanReplayAfterDispatch(safety, effect) ==>
                step.Return? && step.outcome.err == Suppressed(effect, Other(false))
    {
      hide PermitsReplay;
      step := Return(Failed(Canceled));
      effect := EffectOf(r.status, r.outcome);
      var lost := Raised(r.lost);
      if lost.Some? {
        // Dropping the parent would change the caller's intent: no fallback.
        return effect, None, Return(Failed(lost.value));
      }
      if LiveKey(key, st, r.now) && effect == Unknown && r.outcome.retry == RetryAfter {
        return effect, Some(st.(keyed := true)), step;
      }
      var mayRefresh := effect != Accepted
        && (CanReplayAfterDispatch(safety, effect) || (safety == WithKey && LiveKey(key, st, r.later)));
      if AuthFailureOf(c, r.outcome) && !st.refreshed && canRefresh && mayRefresh {
        if r.renewed {
          return effect, Some(st.(refreshed := true, keyed := st.keyed || (safety == WithKey && key.Some?))), step;
        }
      }
      if !CanReplayAfterDispatch(safety, effect) {
        return effect, None, Return(Failed(Suppressed(effect, Other(false))));
      }
      if r.errorClass == Terminal {
        if Stops(node, r.errorClass, r.stops) {
          return effect, None, Return(Failed(Other(false)));
        }
      }
      return effect, None, Next(Some((r.errorClass, Other(false))));
    }

    /** An accepted answer is rendered; whatever happens next, nothing is sent
        again. The attempt is accounted ok only after a staged completion and a
        clean render. */
    method Render(visit: nat, accounting: UsageAttempt, r: Reply) returns (answer: Answer, step: Step)
      requires r.Answers? && acquired == released + [visit]
      requires accounting.Valid() && !accounting.finalized && !accounting.completed && accounting.sink == sink
                 && sink.Valid()
      modifies `released, accounting, sink
      ensures released == acquired && sink.Valid() && answer.Rendered? && step.Return?
      ensures exists status :: sink.emitted == old(sink.emitted) + [Finalization(accounting.id, status)]
                && (status == Ok ==> answer == Rendered(true, true))
                   && (status == Error ==> answer != Rendered(true, true))
      ensures step.outcome.Failed? && IsNoRoute(step.outcome.err) ==> mayWrap
      ensures !r.completes && r.trouble == Fails(true) && !r.cancelled && mayWrap ==> GoesOn(step.outcome)
    {
      var staged, renderErr := false, None;
      if r.completes {
        var incomplete := accounting.Complete(0, [], r.requiredMissing);
        if incomplete { renderErr := Some(Other(false)); } else { staged := true; }
      }
      if renderErr.None? {
        renderErr := Raised(r.trouble);
      }
      if renderErr.None? && r.cancelled {
        renderErr := Some(Canceled);
      }
      Release(visit);
      answer := Rendered(staged, renderErr.None?);
      if renderErr.None? {
        if staged {
          accounting.Finish(r.late, Ok);
        }
        accounting.Finish(false, Error); // the deferred finish of the returning node
        return answer, Return(Done);
      }
      accounting.Finish(r.cancelled, Error);
      if r.cancelled {
        return answer, Return(Failed(Canceled));
      }
      step := Return(Failed(if r.committed then renderErr.value else Suppressed(Accepted, renderErr.value)));
    }

    /** Encodes the request and passes the last gate, or says how the visit ends. A keyed
        retry asks the frozen request's own replay callback, which only exists when the
        encoder provided one; the first request under a key freezes its action. */
    method Prepare(key: Option<Key>, st: RetryState, round: Round)
      returns (frozen: RetryState, upstream: Option<Upstream>, step: Step)
      requires key.Some? ==> ValidPolicy(key.value.policy)
      requires st.keyed ==> key.Some? && st.first.Some?
      requires !st.keyed && key.Some? ==> st.first.None?
      ensures frozen.keyed == st.keyed && frozen.refreshed == st.refreshed
      ensures upstream.Some? ==>
                && (key.Some? && !st.keyed ==> frozen.first == Some(round.now))
                && (key.Some? ==>
                     upstream.value.verb == frozen.verb && upstream.value.url == frozen.url
                       && MediaType(upstream.value.headers) == frozen.media)
                && (st.keyed ==> frozen == st && PermitsReplay(key.value.policy, st.first, round.now))
      ensures upstream.None? ==>
                (step.Next? ==> !st.keyed)
                  && (step.Return? ==> step.outcome.Failed? && (IsNoRoute(step.outcome.err) ==> mayWrap))
      ensures Sends(round) && !st.keyed ==> upstream.Some?
    {
      hide PermitsReplay, MediaType, SetHeader, ValidPolicy;
      frozen, upstream, step := st, None, Return(Failed(Canceled));
      if round.prepared.None? {
        var err := Foreign(round.prepareWraps);
        step := if st.keyed then Return(Failed(Suppressed(Unknown, err))) else Next(Some((Retryable, err)));
        return;
      }
      var prepared := round.prepared.value;
      var stamped := StampKey(prepared, key);
      if key.Some? {
        KeyHeaderKeepsMediaType(key.value.policy, prepared.headers, key.value.clientKey);
        if !st.keyed {
          frozen := st.(replay := prepared.replay, verb := prepared.verb, url := prepared.url,
                        media := MediaType(prepared.headers));
        }
      }
      var refused := CheckDispatch(frozen, key, stamped, round);
      if refused.Some? {
        step := Return(Failed(refused.value));
        return;
      }
      if key.Some? && frozen.first.None? {
        frozen := frozen.(first := Some(round.now));
      }
      upstream := Some(stamped);
    }

    /** One pass through the retry loop: prepare, check, send, and decide. */
    method Round(node: Node, c: Candidate, visit: nat, key: Option<Key>, st: RetryState, round: Round,
                 ghost sent: seq<Dispatch>)
      returns (retry: Option<RetryState>, step: Step, ghost now: seq<Dispatch>)
      requires sink.Valid() && acquired == released + [visit]
      requires key.Some? ==> safety == WithKey && ValidPolicy(key.value.policy)
      requires Ready(safety, key, c, visit, st, sent)
      requires |dispatches| >= |sent|
      modifies `dispatches, `released, sink
      ensures sink.Valid() && dispatches == old(dispatches) + now && |now| <= 1
                && forall d :: d in now ==> d.candidate == c.id
      ensures exists fin :: sink.emitted == old(sink.emitted) + fin && FinalizedOnce(now, fin, |old(dispatches)|)
      ensures retry.Some? ==>
                sent == [] && now != [] && released == old(released) && Ready(safety, key, c, visit, retry.value, now)
      ensures retry.Some? ==> Burst(safety, canRefresh, c) == 2
      ensures retry.None? ==> released == acquired && VisitOk(safety, visit, sent + now)
      ensures retry.None? && step.Next? ==> Continuable(safety, sent + now)
      ensures retry.None? && step.Return? && step.outcome.Failed? && IsNoRoute(step.outcome.err) ==> mayWrap
      ensures safety == OnRejection && RejectsRound(round) ==>
                && now != [] && (retry.Some? <==> !st.refreshed && Burst(safety, canRefresh, c) == 2)
                && (retry.Some? ==> retry.value.refreshed) && (retry.None? ==> MovesOn(step))
      ensures LeaksRound(round) && mayWrap && key.None? ==>
                now != [] && retry.None? && step.Return? && GoesOn(step.outcome)
    {
      hide VisitOk, FinalizedOnce, Continuable, Ready, ValidPolicy, RejectsReply, LeaksReply, Burst, MovesOn,
           PermitsReplay,
           MediaType, SetHeader, CanReplayAfterDispatch, GoesOn, ReservedHeader, ValidHeaderName, FIRST_TRY;
      ReadyFacts(safety, key, c, visit, st, sent);
      now, retry, step := [], None, Return(Failed(Canceled));
      assert sent + [] == sent;
      var frozen, prepared;
      frozen, prepared, step := Prepare(key, st, round);
      if prepared.None? {
        Release(visit);
        NothingFinalized(|dispatches|);
        return;
      }
      var upstream := prepared.value;
      var accounting := new UsageAttempt(sink, |dispatches|);
      var media := MediaType(upstream.headers);
      Send(Dispatch(visit, c.id, key, upstream.verb, upstream.url, media, round.now, NoAnswer, false));
      retry, step := Conclude(node, c, visit, key, frozen, accounting, round.reply);
      ghost var d := dispatches[|dispatches| - 1];
      now := [d];
      ghost var status :| sink.emitted == old(sink.emitted) + [Finalization(accounting.id, status)]
        && (status == Ok ==> d.answer == Rendered(true, true))
           && (status == Error ==> d.answer != Rendered(true, true));
      SentOnce(safety, key, c, st, sent, d, Finalization(accounting.id, status), |old(dispatches)|);
      if retry.Some? {
        RetryIsReady(safety, key, c, frozen, retry.value, d);
      } else if step.Next? {
        RejectedIsContinuable(safety, sent, d);
      }
    }

    /** What follows a request that was sent: a transport error, an error status, or
        an answer to render. */
    method Conclude(node: Node, c: Candidate, visit: nat, key: Option<Key>, st: RetryState, accounting: UsageAttempt,
                    reply: Reply)
      returns (retry: Option<RetryState>, step: Step)
      requires sink.Valid() && acquired == released + [visit] && dispatches != []
      requires accounting.Valid() && !accounting.finalized && !accounting.completed && accounting.sink == sink
      requires key.Some? ==> safety == WithKey
      requires (st.refreshed && key.Some? ==> st.keyed) && (st.keyed ==> key.Some?)
      modifies `dispatches, `released, accounting, sink
      ensures sink.Valid() && |dispatches| == |old(dispatches)|
      ensures dispatches == old(dispatches)[..|dispatches| - 1]
                + [old(dispatches)[|dispatches| - 1].(answer := dispatches[|dispatches| - 1].answer)]
      ensures var answer := dispatches[|dispatches| - 1].answer;
              && (retry.Some? ==>
                   !st.refreshed && !st.keyed && released == old(released) && !answer.Rendered?
                     && answer != Classified(Accepted)
                                  && retry.value == st.(refreshed := retry.value.refreshed, keyed := retry.value.keyed))
              && (retry.Some? && retry.value.keyed ==> key.Some? && st.replay)
              && (retry.Some? && !retry.value.keyed ==>
                   retry.value.refreshed && safety == OnRejection && answer == Classified(Rejected))
              && (retry.None? ==> released == acquired)
              && (retry.None? && step.Next? ==> safety == OnRejection && answer == Classified(Rejected))
              && (exists status :: sink.emitted == old(sink.emitted) + [Finalization(accounting.id, status)]
                    && (status == Ok ==> answer == Rendered(true, true))
                       && (status == Error ==> answer != Rendered(true, true)))
      ensures retry.None? && step.Return? && step.outcome.Failed? && IsNoRoute(step.outcome.err) ==> mayWrap
      ensures retry.Some? ==> Burst(safety, canRefresh, c) == 2
      ensures safety == OnRejection && RejectsReply(reply) ==>
                && (retry.Some? <==> !st.refreshed && Burst(safety, canRefresh, c) == 2)
                && (retry.Some? ==> retry.value.refreshed) && (retry.None? ==> MovesOn(step))
      ensures LeaksReply(reply) && mayWrap ==> retry.None? && step.Return? && GoesOn(step.outcome)
    {
      hide PermitsReplay;
      retry, step := None, Return(Failed(Canceled));
      match reply
      case TransportFails(wraps, cancelled, now) =>
        Note(NoAnswer);
        accounting.Finish(cancelled, Error);
        if !cancelled && LiveKey(key, st, now) {
          retry := Some(st.(keyed := true));
          return;
        }
        Release(visit);
        step := Return(Failed(if cancelled then Canceled else Suppressed(Unknown, Foreign(wraps))));
      case Refuses(_, _, _, _, cancelled, _, _, _, _) =>
        accounting.Finish(cancelled, Error);
        var effect;
        effect, retry, step := HandleErrorStatus(node, c, key, st, reply);
        Note(Classified(effect));
        if retry.None? {
          Release(visit);
        }
      case Answers(_, _, _, _, _, _) =>
        var answer;
        answer, step := Render(visit, accounting, reply);
        Note(answer);
    }

    /** A whole admitted visit: at most two rounds. */
    method Attempt(node: Node, c: Candidate, visit: nat, key: Option<Key>, choice: VisitChoice)
      returns (step: Step, ghost sent: seq<Dispatch>)
      requires sink.Valid() && acquired == released + [visit]
      requires key.Some? ==> safety == WithKey && ValidPolicy(key.value.policy)
      modifies `dispatches, `released, sink
      ensures sink.Valid() && released == acquired && dispatches == old(dispatches) + sent
      ensures exists fin :: sink.emitted == old(sink.emitted) + fin && FinalizedOnce(sent, fin, |old(dispatches)|)
      ensures VisitOk(safety, visit, sent)
      ensures step.Next? ==> Continuable(safety, sent)
      ensures step.Return? && step.outcome.Failed? && IsNoRoute(step.outcome.err) ==> mayWrap
      ensures Tallied(c, key, choice, step, sent)
    {
      hide VisitOk, FinalizedOnce, Continuable, Ready, ValidPolicy, RejectsRound, LeaksRound;
      var st, round := FIRST_TRY, choice.first;
      ghost var fin: seq<Finalization> := [];
      sent := [];
      NothingFinalized(|dispatches|);
      FirstTryIsReady(safety, key, c, visit);
      while true
        invariant sink.Valid() && acquired == released + [visit] && released == old(released)
        invariant dispatches == old(dispatches) + sent
        invariant sink.emitted == old(sink.emitted) + fin && FinalizedOnce(sent, fin, |old(dispatches)|)
        invariant Ready(safety, key, c, visit, st, sent)
        invariant |sent| <= 1 && forall d :: d in sent ==> d.candidate == c.id
        invariant if sent == [] then round == choice.first && st == FIRST_TRY
                    else round == choice.second && Burst(safety, canRefresh, c) == 2
        invariant safety == OnRejection && Rejecting(choice) && sent != [] ==> st.refreshed
        invariant Leaking(choice) && mayWrap && key.None? ==> sent == []
        decreases 2 - |sent|
      {
        ghost var before, emitted := dispatches, sink.emitted;
        var retry;
        ghost var now;
        retry, step, now := Round(node, c, visit, key, st, round, sent);
        ghost var more :| sink.emitted == emitted + more && FinalizedOnce(now, more, |before|);
        AppendFinalizations(sent, fin, now, more, |old(dispatches)|);
        sent, fin := sent + now, fin + more;
        assert sink.emitted == old(sink.emitted) + fin;
        assert dispatches == old(dispatches) + sent;
        if retry.None? {
          return;
        }
        assert sent == now;
        st, round := retry.value, choice.second;
      }
    }

    /** How many requests a visit sent, and how it ended in the two kinds of steady world. */
    ghost predicate Tallied(c: Candidate, key: Option<Key>, choice: VisitChoice, step: Step, sent: seq<Dispatch>)
    {
      && (forall d :: d in sent ==> d.candidate == c.id) && |sent| <= Burst(safety, canRefresh, c)
      && (safety == OnRejection && Rejecting(choice) ==> |sent| == Burst(safety, canRefresh, c) && MovesOn(step))
      && (Leaking(choice) && mayWrap && key.None? ==> |sent| == 1 && step.Return? && GoesOn(step.outcome))
    }

    /** The visit, with a leaking error recorded on its last request. */
    method Visit(node: Node, c: Candidate, visit: nat, key: Option<Key>, choice: VisitChoice)
      returns (step: Step, ghost sent: seq<Dispatch>, ghost fin: seq<Finalization>)
      requires sink.Valid() && acquired == released + [visit]
      requires key.Some? ==> safety == WithKey && ValidPolicy(key.value.policy)
      modifies `dispatches, `released, sink
      ensures sink.Valid() && released == acquired
      ensures dispatches == old(dispatches) + sent && sink.emitted == old(sink.emitted) + fin
      ensures Good(safety, mayWrap, Log(sent, [visit], [visit], fin), visit, visit + 1, |old(dispatches)|,
                step.Next? || GoesOn(step.outcome))
      ensures Tallied(c, key, choice, step, sent)
    {
      hide Good, VisitOk, FinalizedOnce, Continuable, Rejecting, Leaking, Burst;
      var sentBefore := |dispatches|;
      step, sent := Attempt(node, c, visit, key, choice);
      fin :| sink.emitted == old(sink.emitted) + fin && FinalizedOnce(sent, fin, |old(dispatches)|);
      ghost var leak := step.Return? && GoesOn(step.outcome);
      VisitIsGood(safety, mayWrap, visit, sent, fin, |old(dispatches)|, leak, step.Next?);
      if |dispatches| > sentBefore && step.Return? && step.outcome.Failed? {
        Surface(step.outcome.err);
        assert dispatches == old(dispatches) + Leak(sent, leak);
      }
      sent := Leak(sent, leak);
    }

    /** An admitted candidate: credentials, response scope, and the visit itself. Without
        them nothing is sent. */
    method Admitted(node: Node, c: Candidate, visit: nat, key: Option<Key>, choice: VisitChoice)
      returns (step: Step, ghost sent: seq<Dispatch>, ghost fin: seq<Finalization>)
      requires sink.Valid() && acquired == released + [visit]
      requires key.Some? ==> safety == WithKey && ValidPolicy(key.value.policy)
      modifies `dispatches, `released, sink
      ensures sink.Valid() && released == acquired
      ensures dispatches == old(dispatches) + sent && sink.emitted == old(sink.emitted) + fin
      ensures Good(safety, mayWrap, Log(sent, [visit], [visit], fin), visit, visit + 1, |old(dispatches)|,
                step.Next? || GoesOn(step.outcome))
      ensures choice.lease.Fails? || choice.borrow.Fails? || choice.scope.Fails? ==> sent == []
      ensures choice.lease.Fails? || (choice.borrow.Fine? && choice.scope.Fails?) ==> step.Next?
      ensures choice.lease.Fine? && choice.borrow.Fails? ==> step.Return?
      ensures Tallied(c, key, choice, step, sent)
    {
      hide Good, ValidPolicy;
      sent, fin := [], [];
      NothingSentIsGood(safety, mayWrap, visit, |dispatches|, true);
      NothingSentIsGood(safety, mayWrap, visit, |dispatches|, false);
      if choice.lease.Fails? {
        Release(visit);
        return Next(Some((AuthClass, Foreign(choice.lease.wraps)))), [], [];
      }
      if choice.borrow.Fails? {
        Release(visit);
        return Return(Failed(Foreign(choice.borrow.wraps))), [], [];
      }
      if choice.scope.Fails? {
        Release(visit);
        return Next(Some((CapabilityClass, Foreign(choice.scope.wraps)))), [], [];
      }
      hide Tallied;
      step, sent, fin := Visit(node, c, visit, key, choice);
    }

    // ----- What a candidate, a member and a node leave behind ------------------------

    /** A good stretch of the run, over the steps `lo..hi`. */
    ghost predicate Stretch(log: Log, lo: nat, hi: nat, base: nat, goesOn: bool)
    {
      Good(safety, mayWrap, log, lo, hi, base, goesOn)
    }

    /** The walk's own errors are the snapshot's fault. */
    ghost predicate Blames(end: NodeEnd, root: string)
    {
      && (end.CycleMet? ==> !IdsTellPathsApart(nodes, root))
      && (end.NodeMissing? ==> !GraphWalk.Resolved(References(nodes)))
    }

    ghost predicate CandidateEnd(step: Step)
    {
      && (Steady() ==> MovesOn(step) || (leaking && step.Return? && GoesOn(step.outcome)))
      && (Quiet() ==> step == Next(None))
    }

    ghost predicate CandidateDone(c: Candidate, step: Step, log: Log, lo: nat, hi: nat, base: nat)
    {
      Stretch(log, lo, hi, base, step.Next? || GoesOn(step.outcome)) && Counts(log, Weight()(c)) && CandidateEnd(step)
    }

    ghost predicate RoutesEnd(outcome: Option<Result>)
    {
      && (Steady() ==> outcome.None? || (leaking && GoesOn(outcome.value)))
      && (Quiet() ==> outcome.None?)
    }

    ghost predicate RoutesDone(candidates: seq<Candidate>, outcome: Option<Result>, log: Log, lo: nat, hi: nat,
                               base: nat)
    {
      && Stretch(log, lo, hi, base, outcome.None? || GoesOn(outcome.value))
      && Counts(log, Weigh(candidates, Weight())) && RoutesEnd(outcome)
    }

    /** None means that the next member is tried. */
    ghost predicate MemberEnd(node: Node, m: Member, open: set<string>, root: string, end: Option<NodeEnd>)
    {
      && (end.Some? ==> Blames(end.value, root))
      && (Steady() ==> end.None? || (leaking && |node.members| == 1 && FallsBack(end.value)))
      && (Quiet() ==> if MemberMeets(nodes, m, open) then end.Some? && end.value.CycleMet? else end.None?)
    }

    ghost predicate MemberDone(node: Node, m: Member, open: set<string>, root: string, end: Option<NodeEnd>,
                               log: Log, lo: nat, hi: nat, base: nat)
    {
      && Stretch(log, lo, hi, base, end.None? || FallsBack(end.value))
      && Counts(log, MemberLoad(nodes, tables, Weight(), node, m, open)) && MemberEnd(node, m, open, root, end)
    }

    ghost predicate PlanEnd(node: Node, open: set<string>, root: string, end: NodeEnd)
    {
      && Blames(end, root) && (Steady() ==> FallsBack(end))
      && (Quiet() ==> if AnyMeets(nodes, node.members, open) then end.CycleMet? else FallsBack(end))
    }

    ghost predicate PlanDone(node: Node, open: set<string>, root: string, end: NodeEnd, log: Log, lo: nat, hi: nat,
                             base: nat)
    {
      && Stretch(log, lo, hi, base, FallsBack(end))
      && Counts(log, PlanLoad(nodes, tables, Weight(), node, open)) && PlanEnd(node, open, root, end)
    }

    ghost predicate NodeEndsWell(key: string, stack: set<string>, root: string, end: NodeEnd)
    {
      && Blames(end, root) && (Steady() ==> FallsBack(end))
      && (Quiet() ==> if Meets(nodes, key, stack) then end.CycleMet? else FallsBack(end))
    }

    ghost predicate NodeDone(key: string, stack: set<string>, root: string, end: NodeEnd, log: Log, lo: nat, hi: nat,
                             base: nat)
    {
      && Stretch(log, lo, hi, base, FallsBack(end))
      && Counts(log, NodeLoad(nodes, tables, Weight(), key, stack)) && NodeEndsWell(key, stack, root, end)
    }

    // ----- Candidates and routes -----------------------------------------------------

    /** One candidate: everything before admission, the admission, and the visit. Only an
        admitted visit sends. */
    method TryCandidate(node: Node, c: Candidate) returns (step: Step, ghost log: Log)
      requires Valid()
      modifies `dispatches, `acquired, `released, `visits, sink
      ensures Valid() && Grew(log) && visits == old(visits) + 1
      ensures log.acquired == if c.serves && world.visit(old(visits), c).gate.Passes?
                && world.visit(old(visits), c).admitted
                              then [old(visits)] else []
      ensures log.acquired == [] ==> log == EMPTY
      ensures CandidateDone(c, step, log, old(visits), visits, |old(dispatches)|)
    {
      hide Good, GoesOn, ValidPolicy, Steady, Quiet, Tallied;
      var visit := visits;
      NothingSentIsGood(safety, mayWrap, visit, |dispatches|, true);
      NothingSentIsGood(safety, mayWrap, visit, |dispatches|, false);
      SteadyVisit(visit, c);
      QuietVisit(visit, c);
      visits := visits + 1;
      var choice := world.visit(visit, c);
      var early := Preflight(c, choice.gate);
      if early.Some? {
        return early.value, EMPTY;
      }
      var key := if safety == WithKey && clientKey != "" && ValidPolicy(choice.policy)
                 then Some(Key(choice.policy, clientKey, c.id)) else None;
      if !choice.admitted {
        return Next(Some((Cooldown, NoRoute))), EMPTY;
      }
      Acquire(visit);
      ghost var sent, fin;
      step, sent, fin := Admitted(node, c, visit, key, choice);
      log := Log(sent, [visit], [visit], fin);
      TalliedVisit(c, key, choice, step, sent, log);
    }

    method Rank(choice: MemberChoice, candidates: seq<Candidate>) returns (ranked: seq<Candidate>)
      ensures multiset(ranked) <= multiset(candidates)
      ensures choice.ranking == Unranked ==> ranked == candidates
    {
      var ranking := choice.ranking;
      ranked := ranking(candidates);
    }

    /** The usable candidates of a member in turn, as ranked. */
    method TryRoutes(node: Node, ranked: seq<Candidate>, stops: bool, ghost candidates: seq<Candidate>)
      returns (outcome: Option<Result>, ghost log: Log)
      requires Valid() && multiset(ranked) <= multiset(candidates)
      requires Steady() ==> ranked == candidates && (leaking ==> |candidates| <= 1)
      requires Steady() || Quiet() ==> node.planning.BuiltIn?
      modifies `dispatches, `acquired, `released, `visits, sink
      ensures Valid() && Grew(log)
      ensures ranked == [] ==> log == EMPTY
      ensures RoutesDone(candidates, outcome, log, old(visits), visits, |old(dispatches)|)
    {
      hide CandidateDone, RoutesDone, RoutesSoFar, Steady, Quiet, Append, GoesOn;
      ghost var start := Snapshot();
      var errorClass := Retryable;
      log := EMPTY;
      NoRoutesYet(ranked, visits, |dispatches|);
      for i := 0 to |ranked|
        invariant Valid() && Snapshot() == Append(start, log)
        invariant RoutesSoFar(ranked, i, errorClass, log, old(visits), visits, |old(dispatches)|)
        invariant ranked == [] ==> log == EMPTY
      {
        ghost var mid, before := visits, log;
        var step;
        ghost var more;
        step, more := TryCandidate(node, ranked[i]);
        log := Append(before, more);
        GrowsBy(start, before, more);
        if step.Return? {
          RoutesReturn(ranked, i, errorClass, before, old(visits), mid, |old(dispatches)|, step, more, visits,
                       candidates);
          return Some(step.outcome), log;
        }
        RoutesGoOn(ranked, i, errorClass, before, old(visits), mid, |old(dispatches)|, step, more, visits);
        if step.failure.Some? {
          errorClass := step.failure.value.0;
        }
      }
      outcome := if Stops(node, errorClass, stops) then Some(Failed(NoRoute)) else None;
      RoutesExhausted(node, ranked, errorClass, stops, outcome, log, old(visits), visits, |old(dispatches)|,
                      candidates);
    }

    /** A route or route-group member. A physical node with a disallowed source has no
        candidates. */
    method TryRouteMember(node: Node, member: Member, choice: MemberChoice, ghost open: set<string>, ghost root: string)
      returns (end: Option<NodeEnd>, ghost log: Log)
      requires Valid() && member.kind != Strategies.ModelMember
      requires Steady() ==>
                 choice.ranking == Unranked && (leaking ==> |node.members| == 1 && |Resolve(tables, member)| <= 1)
      requires Steady() || Quiet() ==> node.planning.BuiltIn?
      modifies `dispatches, `acquired, `released, `visits, sink
      ensures Valid() && Grew(log)
      ensures node.physical && !PhysicalSourceAllowed(node, member) ==> log == EMPTY
      ensures MemberDone(node, member, open, root, end, log, old(visits), visits, |old(dispatches)|)
    {
      hide MemberDone, RoutesDone, Steady, Quiet, PhysicalSourceAllowed, Resolve;
      var candidates := ResolveRouteMember(tables, member);
      var ranked := Rank(choice, candidates);
      ghost var offered := candidates;
      if node.physical && !PhysicalSourceAllowed(node, member) {
        ranked, offered := [], [];
      }
      var outcome;
      outcome, log := TryRoutes(node, ranked, choice.stops, offered);
      end := if outcome.Some? then Some(Ended(outcome.value)) else None;
      RoutesOfMember(node, member, open, root, outcome, log, old(visits), visits, |old(dispatches)|, offered);
    }

    // ----- Members and nodes ---------------------------------------------------------

    /** One member of a node: a nested model, or routes. None means the next member
        is tried. */
    method TryMember(node: Node, member: Member, ghost path: seq<string>) returns (end: Option<NodeEnd>, ghost log: Log)
      requires Valid() && OnPath(nodes, path, stack) && path != [] && nodes[path[|path| - 1]] == node
                 && member in node.members
      modifies `dispatches, `acquired, `released, `visits, `turns, `stack, sink
      ensures Valid() && Grew(log) && stack == old(stack)
      ensures MemberDone(node, member, stack, path[0], end, log, old(visits), visits, |old(dispatches)|)
      decreases |NodeIds(nodes) - stack|, 1
    {
      hide MemberDone, NodeDone, OnPath, Steady, Quiet, Append;
      OnPathFacts(nodes, path, stack);
      SteadyMember(turns, path[|path| - 1], member);
      BuiltInPlanning(path[|path| - 1]);
      var choice := world.member(turns);
      turns := turns + 1;
      if member.kind != Strategies.ModelMember {
        end, log := TryRouteMember(node, member, choice, stack, path[0]);
        return;
      }
      if member.id !in nodes {
        log := EMPTY;
        NothingAppended(Snapshot());
        MissingMember(node, member, path, stack, visits, |dispatches|);
        return Some(NodeMissing(member.id)), log;
      }
      ChildExtendsPath(nodes, path, stack, member);
      var child;
      child, log := ExecuteNode(member.id, path);
      end := if !FallsBack(child) || Stops(node, Retryable, choice.stops) then Some(child) else None;
      ChildOfMember(node, member, stack, path[0], child, choice.stops, end, log, old(visits), visits,
                    |old(dispatches)|);
    }

    /** The planned members in turn. */
    method TryMembers(node: Node, choice: NodeChoice, ghost path: seq<string>) returns (end: NodeEnd, ghost log: Log)
      requires Valid() && OnPath(nodes, path, stack) && path != [] && nodes[path[|path| - 1]] == node
      requires PlansWell(node, choice, stack)
      modifies `dispatches, `acquired, `released, `visits, `turns, `stack, sink
      ensures Valid() && Grew(log) && stack == old(stack)
      ensures PlanDone(node, stack, path[0], end, log, old(visits), visits, |old(dispatches)|)
      decreases |NodeIds(nodes) - stack|, 3
    {
      hide PlanDone, MembersSoFar, OnPath, Steady, Quiet, Append, Planned, PlansWell, NodeIds, PathIds, AllBuiltIn;
      ghost var start := Snapshot();
      var plan := Planned(node, choice);
      OnPathFacts(nodes, path, stack);
      BuiltInPlanning(path[|path| - 1]);
      log := EMPTY;
      NoMembersYet(node, plan, stack, visits, |dispatches|);
      NothingAppended(start);
      for i := 0 to |plan|
        invariant Valid() && Snapshot() == Append(start, log) && stack == old(stack)
        invariant MembersSoFar(node, plan, i, stack, log, old(visits), visits, |old(dispatches)|)
      {
        var next;
        next, log := TryNext(node, choice, i, path, start, log, old(visits));
        if next.Some? {
          return next.value, log;
        }
      }
      end := Ended(Failed(NoRoute));
      MembersExhausted(node, choice, stack, path[0], log, old(visits), visits, |old(dispatches)|);
    }

    /** The next planned member, unless the run was cancelled. `before` is what the members
        so far left since `start`. */
    method TryNext(node: Node, choice: NodeChoice, i: nat, ghost path: seq<string>, ghost start: Log, ghost before: Log,
                   ghost lo: nat)
      returns (next: Option<NodeEnd>, ghost log: Log)
      requires Valid() && OnPath(nodes, path, stack) && path != [] && nodes[path[|path| - 1]] == node
      requires PlansWell(node, choice, stack) && i < |Planned(node, choice)| && Snapshot() == Append(start, before)
      requires MembersSoFar(node, Planned(node, choice), i, stack, before, lo, visits, |start.dispatches|)
      modifies `dispatches, `acquired, `released, `visits, `turns, `stack, sink
      ensures Valid() && Snapshot() == Append(start, log) && stack == old(stack)
      ensures next.None? ==>
                MembersSoFar(node, Planned(node, choice), i + 1, stack, log, lo, visits, |start.dispatches|)
      ensures next.Some? ==> PlanDone(node, stack, path[0], next.value, log, lo, visits, |start.dispatches|)
      decreases |NodeIds(nodes) - stack|, 2
    {
      hide MemberDone, PlanDone, MembersSoFar, OnPath, Steady, Quiet, Append, Planned, PlansWell, NodeIds, PathIds,
           AllBuiltIn, FallsBack;
      var member := Planned(node, choice)[i];
      PlannedIsMember(node, choice, i);
      OnPathFacts(nodes, path, stack);
      BuiltInPlanning(path[|path| - 1]);
      SteadyMember(turns, path[|path| - 1], member);
      if world.member(turns).cancelled {
        MembersCancelled(node, choice, i, stack, path[0], before, lo, visits, |start.dispatches|);
        return Some(Ended(Failed(Canceled))), before;
      }
      ghost var mid := visits;
      ghost var more;
      next, more := TryMember(node, member, path);
      log := Append(before, more);
      GrowsBy(start, before, more);
      if next.Some? {
        MembersReturn(node, choice, i, stack, path[0], before, lo, mid, |start.dispatches|, next.value, more, visits);
      } else {
        MembersGoOn(node, Planned(node, choice), i, stack, path[0], before, lo, mid, |start.dispatches|, more, visits);
      }
    }

    /** A node: its planned members in turn, until one answers, fails for good, or
        the failure policy stops the node. `path` is the chain of snapshot keys that
        led here. */
    method ExecuteNode(key: string, ghost path: seq<string>) returns (end: NodeEnd, ghost log: Log)
      requires Valid() && key in nodes && stack == PathIds(nodes, path)
                 && OnPath(nodes, path + [key], stack + {nodes[key].id})
      modifies `dispatches, `acquired, `released, `visits, `turns, `stack, sink
      ensures Valid() && Grew(log) && stack == old(stack)
      ensures nodes[key].id in old(stack) ==> end == CycleMet(nodes[key].id) && log == EMPTY
      ensures NodeDone(key, stack, RootOf(path, key), end, log, old(visits), visits, |old(dispatches)|)
      decreases |NodeIds(nodes) - stack|, 0
    {
      hide NodeDone, PlanDone, OnPath, PathIds, Steady, Quiet, Append, PlansWell;
      var node := nodes[key];
      log := EMPTY;
      NothingAppended(Snapshot());
      if node.id in stack {
        NodeOnStack(path, key, stack, visits, |dispatches|);
        return CycleMet(node.id), log;
      }
      Sets.Smaller(NodeIds(nodes) - (stack + {node.id}), NodeIds(nodes) - stack);
      stack := stack + {node.id};
      SteadyNode(turns, key, stack);
      var choice := world.node(turns, key, stack);
      turns := turns + 1;
      if choice.transform.Fails? {
        stack := stack - {node.id};
        end := Ended(Failed(Foreign(choice.transform.wraps)));
        NodeRefused(key, stack, RootOf(path, key), end, visits, |dispatches|);
        return;
      }
      assert (path + [key])[0] == RootOf(path, key);
      end, log := TryMembers(node, choice, path + [key]);
      stack := stack - {node.id};
      NodeOfPlan(key, stack, RootOf(path, key), end, log, old(visits), visits, |old(dispatches)|);
    }

    /** A whole run, from the published model's node. What the operation's replay
        safety promises holds of everything sent during it, and no candidate gets more
        requests than its listings below the node allow. */
    method Execute(published: map<string, string>, model: string) returns (end: NodeEnd, ghost log: Log)
      requires Valid() && dispatches == [] && acquired == [] && visits == 0 && stack == {} && sink.emitted == []
      requires forall name :: name in published ==> published[name] in nodes
      modifies `dispatches, `acquired, `released, `visits, `turns, `stack, sink
      ensures Valid() && stack == {} && Snapshot() == log && Good(safety, mayWrap, log, 0, visits, 0, FallsBack(end))
      ensures !mayWrap && (safety == Never || safety == BeforeDispatch) ==> |dispatches| <= 1
      ensures !mayWrap && safety == WithKey ==> |dispatches| <= 2
      ensures !mayWrap && safety == WithKey && |dispatches| == 2 ==> KeyedReplay(dispatches[0], dispatches[1])
      ensures !mayWrap && safety == OnRejection ==>
                forall i :: 0 <= i < |dispatches| - 1 ==> dispatches[i].answer == Classified(Rejected)
      ensures released == acquired && |sink.emitted| == |dispatches|
      ensures model in published && end.CycleMet? ==> !IdsTellPathsApart(nodes, published[model])
      ensures model in published && Quiet() ==> (end.CycleMet? <==> !IdsTellPathsApart(nodes, published[model]))
      ensures end.NodeMissing? ==> !GraphWalk.Resolved(References(nodes))
      ensures model !in published ==> !end.CycleMet? && dispatches == []
      ensures model in published && AllBuiltIn(nodes) ==>
                Requests(dispatches, watched) <= MostRequests(nodes, tables, published[model], safety, canRefresh,
                  watched)
      ensures model in published && AllBuiltIn(nodes) ==>
                Requests(dispatches, watched) <= 2 * Listed(nodes, tables, published[model], watched)
      ensures model in published && Steady() ==>
                Requests(dispatches, watched) ==
                  MostRequests(nodes, tables, published[model], safety, canRefresh, watched)
    {
      hide Good, OnPath, IdsTellPathsApart, GraphWalk.Resolved, PathIds, Steady, Quiet, AllBuiltIn, NodeLoad, Meets;
      log := EMPTY;
      EmptyIsGood(safety, mayWrap, 0, 0);
      GoodMayStop(safety, mayWrap, log, 0, 0, 0, false);
      SteadyStart();
      if model !in published {
        end := Ended(Failed(Other(false)));
      } else if world.preparation.Fails? {
        end := Ended(Failed(Foreign(world.preparation.wraps)));
      } else {
        var root := published[model];
        RootIsOnPath(nodes, root);
        end, log := ExecuteNode(root, []);
        TwoRequestsAListing(nodes, tables, root, safety, canRefresh, watched);
        MeetsExactlyWhenAnIdRepeats(nodes, root);
      }
      GoodRunKeepsItsPromise(safety, mayWrap, log, visits, FallsBack(end));
    }

    // ----- Growth of the run -----------------------------------------------------------

    lemma GrowsBy(start: Log, before: Log, more: Log)
      ensures Append(Append(start, before), more) == Append(start, Append(before, more))
      ensures |Append(start, before).dispatches| == |start.dispatches| + |before.dispatches|
    {
    }

    lemma NothingAppended(start: Log)
      ensures Append(start, EMPTY) == start
    {
    }

    lemma StretchExtends(before: Log, more: Log, lo: nat, mid: nat, hi: nat, base: nat, goesOn: bool)
      requires Stretch(before, lo, mid, base, true) && Stretch(more, mid, hi, base + |before.dispatches|, goesOn)
      ensures Stretch(Append(before, more), lo, hi, base, goesOn)
    {
      hide Good;
      AppendGood(safety, mayWrap, before, more, lo, mid, hi, base, goesOn);
    }

    lemma StretchStops(log: Log, lo: nat, hi: nat, base: nat, goesOn: bool)
      requires Stretch(log, lo, hi, base, true)
      ensures Stretch(log, lo, hi, base, goesOn)
    {
      hide Good;
      GoodMayStop(safety, mayWrap, log, lo, hi, base, goesOn);
    }

    lemma NothingYet(at: nat, base: nat, goesOn: bool)
      ensures Stretch(EMPTY, at, at, base, goesOn) && Counts(EMPTY, 0)
    {
      hide Good, Steady, AllBuiltIn;
      EmptyIsGood(safety, mayWrap, at, base);
      GoodMayStop(safety, mayWrap, EMPTY, at, at, base, goesOn);
    }

    // ----- One step of the loop over routes ---------------------------------------------

    ghost predicate RoutesSoFar(routes: seq<Candidate>, i: nat, errorClass: ErrorClass, log: Log, lo: nat, mid: nat,
                                base: nat)
      requires i <= |routes|
    {
      && Stretch(log, lo, mid, base, true) && Counts(log, Weigh(routes[..i], Weight()))
      && (Steady() || Quiet() ==> errorClass != Terminal)
    }

    lemma NoRoutesYet(routes: seq<Candidate>, at: nat, base: nat)
      ensures RoutesSoFar(routes, 0, Retryable, EMPTY, at, at, base) && forall start :: Append(start, EMPTY) == start
    {
      hide Stretch, Counts, Steady, Quiet;
      NothingYet(at, base, true);
    }

    lemma RoutesCounted(routes: seq<Candidate>, i: nat, before: Log, more: Log)
      requires i < |routes| && Counts(before, Weigh(routes[..i], Weight())) && Counts(more, Weight()(routes[i]))
      ensures Counts(Append(before, more), Weigh(routes[..i + 1], Weight()))
    {
      hide Counts, Share;
      assert routes[..i + 1][..i] == routes[..i];
      AddCounts(before, more, Weigh(routes[..i], Weight()), Weight()(routes[i]));
    }

    lemma RoutesGoOn(routes: seq<Candidate>, i: nat, errorClass: ErrorClass, before: Log, lo: nat, mid: nat, base: nat,
                     step: Step, more: Log, hi: nat)
      requires i < |routes| && RoutesSoFar(routes, i, errorClass, before, lo, mid, base)
      requires CandidateDone(routes[i], step, more, mid, hi, base + |before.dispatches|) && step.Next?
      ensures RoutesSoFar(routes, i + 1, if step.failure.Some? then step.failure.value.0 else errorClass,
                Append(before, more), lo, hi, base)
    {
      hide Stretch, Counts, Steady, Quiet, Append, Weigh, Share;
      StretchExtends(before, more, lo, mid, hi, base, true);
      RoutesCounted(routes, i, before, more);
    }

    lemma RoutesReturn(routes: seq<Candidate>, i: nat, errorClass: ErrorClass, before: Log, lo: nat, mid: nat,
                       base: nat, step: Step, more: Log, hi: nat, candidates: seq<Candidate>)
      requires i < |routes| && RoutesSoFar(routes, i, errorClass, before, lo, mid, base)
      requires CandidateDone(routes[i], step, more, mid, hi, base + |before.dispatches|) && step.Return?
      requires multiset(routes) <= multiset(candidates)
      requires Steady() ==> routes == candidates && (leaking ==> |candidates| <= 1)
      ensures RoutesDone(candidates, Some(step.outcome), Append(before, more), lo, hi, base)
    {
      hide Stretch, Counts, Steady, Quiet, Append, Weigh, Share, GoesOn;
      StretchExtends(before, more, lo, mid, hi, base, GoesOn(step.outcome));
      RoutesCounted(routes, i, before, more);
      PrefixWeighsLess(Append(before, more), routes, i + 1, candidates);
    }

    lemma RoutesExhausted(node: Node, routes: seq<Candidate>, errorClass: ErrorClass, stops: bool,
                          outcome: Option<Result>, log: Log, lo: nat, hi: nat, base: nat, candidates: seq<Candidate>)
      requires RoutesSoFar(routes, |routes|, errorClass, log, lo, hi, base) && multiset(routes) <= multiset(candidates)
      requires outcome == if Stops(node, errorClass, stops) then Some(Failed(NoRoute)) else None
      requires Steady() ==> routes == candidates
      requires Steady() || Quiet() ==> node.planning.BuiltIn?
      ensures RoutesDone(candidates, outcome, log, lo, hi, base)
    {
      hide Stretch, Counts, Steady, Quiet, Append, Weigh, Share;
      assert routes[..|routes|] == routes;
      PrefixWeighsLess(log, routes, |routes|, candidates);
    }

    lemma RoutesOfMember(node: Node, m: Member, open: set<string>, root: string, outcome: Option<Result>, log: Log,
                         lo: nat, hi: nat, base: nat, offered: seq<Candidate>)
      requires RoutesDone(offered, outcome, log, lo, hi, base) && m.kind != Strategies.ModelMember
      requires offered == if node.physical && !PhysicalSourceAllowed(node, m) then [] else Resolve(tables, m)
      requires Steady() && leaking ==> |node.members| == 1
      ensures MemberDone(node, m, open, root, if outcome.Some? then Some(Ended(outcome.value)) else None, log, lo, hi,
                base)
    {
      hide Stretch, Counts, Steady, Quiet, Share, PhysicalSourceAllowed, Resolve;
    }

    // ----- One step of the loop over members --------------------------------------------

    ghost predicate MembersSoFar(node: Node, plan: seq<Member>, i: nat, open: set<string>, log: Log, lo: nat, mid: nat,
                                 base: nat)
      requires i <= |plan|
    {
      && Stretch(log, lo, mid, base, true) && Counts(log, MembersLoad(nodes, tables, Weight(), node, plan[..i], open))
      && (Quiet() ==> forall k :: 0 <= k < i ==> !MemberMeets(nodes, plan[k], open))
    }

    /** In a steady world a node that plans one member plans the heaviest; in a quiet one it
        plans one that leads to an open ID, if any does. */
    ghost predicate PlansWell(node: Node, choice: NodeChoice, open: set<string>)
    {
      PlansOne(node) ==>
        var start := Strategies.Start(Strategies.RoundRobin, node.members, choice.state);
        && (Steady() ==> start == Heaviest(nodes, tables, Weight(), node, node.members, open))
        && (Quiet() && AnyMeets(nodes, node.members, open) ==> MemberMeets(nodes, node.members[start], open))
    }

    lemma NoMembersYet(node: Node, plan: seq<Member>, open: set<string>, at: nat, base: nat)
      ensures MembersSoFar(node, plan, 0, open, EMPTY, at, at, base)
    {
      hide Stretch, Counts, Quiet;
      NothingYet(at, base, true);
      LoadOfNone(nodes, tables, Weight(), node, plan, open);
    }

    lemma MembersCounted(node: Node, plan: seq<Member>, i: nat, open: set<string>, before: Log, more: Log)
      requires i < |plan| && Counts(before, MembersLoad(nodes, tables, Weight(), node, plan[..i], open))
      requires Counts(more, MemberLoad(nodes, tables, Weight(), node, plan[i], open))
      ensures Counts(Append(before, more), MembersLoad(nodes, tables, Weight(), node, plan[..i + 1], open))
    {
      hide Counts, Share, MembersLoad, MemberLoad;
      LoadOfNext(nodes, tables, Weight(), node, plan, i, open);
      AddCounts(before, more, MembersLoad(nodes, tables, Weight(), node, plan[..i], open),
                MemberLoad(nodes, tables, Weight(), node, plan[i], open));
    }

    lemma MembersGoOn(node: Node, plan: seq<Member>, i: nat, open: set<string>, root: string, before: Log, lo: nat,
                      mid: nat, base: nat, more: Log, hi: nat)
      requires i < |plan| && MembersSoFar(node, plan, i, open, before, lo, mid, base)
      requires MemberDone(node, plan[i], open, root, None, more, mid, hi, base + |before.dispatches|)
      ensures MembersSoFar(node, plan, i + 1, open, Append(before, more), lo, hi, base)
    {
      hide Stretch, Counts, Steady, Quiet, Append, Share, MembersLoad, MemberLoad, MemberMeets;
      StretchExtends(before, more, lo, mid, hi, base, true);
      MembersCounted(node, plan, i, open, before, more);
    }

    lemma MembersReturn(node: Node, choice: NodeChoice, i: nat, open: set<string>, root: string, before: Log, lo: nat,
                        mid: nat, base: nat, end: NodeEnd, more: Log, hi: nat)
      requires i < |Planned(node, choice)| && MembersSoFar(node, Planned(node, choice), i, open, before, lo, mid, base)
      requires MemberDone(node, Planned(node, choice)[i], open, root, Some(end), more, mid, hi,
                 base + |before.dispatches|)
      requires PlansWell(node, choice, open)
      requires AllBuiltIn(nodes) || Steady() || Quiet() ==> node.planning.BuiltIn?
      ensures PlanDone(node, open, root, end, Append(before, more), lo, hi, base)
    {
      hide Stretch, Counts, Steady, Quiet, Append, Share, MembersLoad, MemberLoad, PlanLoad, MemberMeets, PlansWell,
           Planned, FallsBack, Blames;
      var plan := Planned(node, choice);
      StretchExtends(before, more, lo, mid, hi, base, FallsBack(end));
      MembersCounted(node, plan, i, open, before, more);
      PlanOfOne(node, choice);
      PlanPrefix(node, choice, Append(before, more), i + 1, open);
      if Quiet() {
        assert MemberMeets(nodes, plan[i], open);
        PlannedIsMember(node, choice, i);
        SomeMeets(node, plan[i], open);
      }
    }

    lemma SomeMeets(node: Node, m: Member, open: set<string>)
      requires m in node.members && MemberMeets(nodes, m, open)
      ensures AnyMeets(nodes, node.members, open)
    {
      var k :| 0 <= k < |node.members| && node.members[k] == m;
    }

    lemma MembersCancelled(node: Node, choice: NodeChoice, i: nat, open: set<string>, root: string, log: Log, lo: nat,
                           hi: nat, base: nat)
      requires i <= |Planned(node, choice)| && MembersSoFar(node, Planned(node, choice), i, open, log, lo, hi, base)
      requires PlansWell(node, choice, open) && !Steady() && !Quiet()
      requires AllBuiltIn(nodes) ==> node.planning.BuiltIn?
      ensures PlanDone(node, open, root, Ended(Failed(Canceled)), log, lo, hi, base)
    {
      hide Stretch, Counts, Steady, Quiet, Share, MembersLoad, MemberLoad, PlanLoad, MemberMeets, PlansWell, Planned;
      StretchStops(log, lo, hi, base, false);
      PlanPrefix(node, choice, log, i, open);
    }

    lemma MembersExhausted(node: Node, choice: NodeChoice, open: set<string>, root: string, log: Log, lo: nat, hi: nat,
                           base: nat)
      requires MembersSoFar(node, Planned(node, choice), |Planned(node, choice)|, open, log, lo, hi, base)
      requires PlansWell(node, choice, open)
      requires AllBuiltIn(nodes) || Steady() || Quiet() ==> node.planning.BuiltIn?
      ensures PlanDone(node, open, root, Ended(Failed(NoRoute)), log, lo, hi, base)
    {
      hide Stretch, Counts, Steady, Quiet, Share, MembersLoad, MemberLoad, PlanLoad, MemberMeets, PlansWell, Planned,
           AnyMeets;
      var plan := Planned(node, choice);
      assert plan[..|plan|] == plan;
      PlanPrefix(node, choice, log, |plan|, open);
      if Quiet() && AnyMeets(nodes, node.members, open) {
        var k := PlanMeets(node, choice, open);
      }
    }

    /** The plan tries a member that leads to an open ID, if any does. */
    lemma PlanMeets(node: Node, choice: NodeChoice, open: set<string>) returns (k: nat)
      requires PlansWell(node, choice, open) && Quiet() && node.planning.BuiltIn? && AnyMeets(nodes, node.members, open)
      ensures k < |Planned(node, choice)| && MemberMeets(nodes, Planned(node, choice)[k], open)
    {
      hide Steady, Quiet, MemberMeets, Strategies.Start, Heaviest;
      var plan := Planned(node, choice);
      if PlansOne(node) {
        k := 0;
        assert plan[0] == node.members[Strategies.Start(Strategies.RoundRobin, node.members, choice.state)];
      } else {
        var i :| 0 <= i < |node.members| && MemberMeets(nodes, node.members[i], open);
        PlanTriesAll(node, choice, node.members[i]);
        k :| 0 <= k < |plan| && plan[k] == node.members[i];
      }
    }

    lemma PlanTriesAll(node: Node, choice: NodeChoice, m: Member)
      requires node.planning.BuiltIn? && !PlansOne(node) && m in node.members
      ensures m in Planned(node, choice)
    {
      hide Strategies.Start;
      if |node.members| >= 2 {
        Strategies.FallbackPlansArePermutations(node.planning.strategy, node.members, choice.state);
        assert m in multiset(node.members);
      }
    }

    // ----- From members to nodes ----------------------------------------------------------

    lemma MissingMember(node: Node, m: Member, path: seq<string>, open: set<string>, at: nat, base: nat)
      requires OnPath(nodes, path, open) && path != [] && nodes[path[|path| - 1]] == node
      requires m in node.members && m.kind == Strategies.ModelMember && m.id !in nodes
      ensures MemberDone(node, m, open, path[0], Some(NodeMissing(m.id)), EMPTY, at, at, base)
    {
      hide Stretch, Counts, Insisting, PlansHeaviest, Idle, PlansMeeting, IdsTellPathsApart, Share;
      OnPathFacts(nodes, path, open);
      MissingChildIsUnresolved(nodes, path[|path| - 1], m);
      hide GraphWalk.Resolved;
      NothingYet(at, base, false);
      assert MemberLoad(nodes, tables, Weight(), node, m, open) == 0;
    }

    lemma ChildOfMember(node: Node, m: Member, open: set<string>, root: string, child: NodeEnd, stops: bool,
                        end: Option<NodeEnd>, log: Log, lo: nat, hi: nat, base: nat)
      requires NodeDone(m.id, open, root, child, log, lo, hi, base) && m.kind == Strategies.ModelMember
      requires end == if !FallsBack(child) || Stops(node, Retryable, stops) then Some(child) else None
      requires Steady() || Quiet() ==> node.planning.BuiltIn?
      ensures MemberDone(node, m, open, root, end, log, lo, hi, base)
    {
      hide Stretch, Counts, Steady, Quiet, Blames, NodeLoad, Meets, Share;
    }

    lemma NodeOnStack(path: seq<string>, key: string, stack: set<string>, at: nat, base: nat)
      requires key in nodes && stack == PathIds(nodes, path) && OnPath(nodes, path + [key], stack + {nodes[key].id})
      requires nodes[key].id in stack
      ensures NodeDone(key, stack, RootOf(path, key), CycleMet(nodes[key].id), EMPTY, at, at, base)
    {
      hide Stretch, Counts, IdsTellPathsApart, Share, OnPath, PathIds, GraphWalk.Resolved, Insisting, PlansHeaviest,
           Idle, PlansMeeting;
      MeetingTheStackRepeatsAnId(nodes, path, key, stack);
      NothingYet(at, base, false);
    }

    lemma NodeRefused(key: string, stack: set<string>, root: string, end: NodeEnd, at: nat, base: nat)
      requires !Steady() && !Quiet() && end.Ended?
      ensures NodeDone(key, stack, root, end, EMPTY, at, at, base)
    {
      hide Stretch, Counts, Steady, Quiet, Share, NodeLoad, Meets, FallsBack;
      NothingYet(at, base, FallsBack(end));
      FewerCounted(EMPTY, 0, NodeLoad(nodes, tables, Weight(), key, stack));
    }

    lemma NodeOfPlan(key: string, stack: set<string>, root: string, end: NodeEnd, log: Log, lo: nat, hi: nat, base: nat)
      requires key in nodes && nodes[key].id !in stack
      requires PlanDone(nodes[key], stack + {nodes[key].id}, root, end, log, lo, hi, base)
      ensures NodeDone(key, stack, root, end, log, lo, hi, base)
    {
      hide Stretch, Counts, Steady, Quiet, Share, PlanLoad, AnyMeets, FallsBack, Blames;
    }

    // ----- What a steady or quiet world does at each choice ------------------------------

    lemma SteadyStart()
      ensures Steady() || Quiet() ==> world.preparation.Fine?
    {
    }

    lemma SteadyNode(n: nat, key: string, open: set<string>)
      requires key in nodes
      ensures Steady() || Quiet() ==> world.node(n, key, open).transform.Fine?
      ensures PlansWell(nodes[key], world.node(n, key, open), open)
    {
      hide Strategies.Start, Heaviest, PlansOne, Share, Rejecting, Leaking, MemberMeets, AnyMeets, IdsTellPathsApart,
           GraphWalk.Resolved;
    }

    lemma SteadyMember(n: nat, key: string, m: Member)
      requires key in nodes && m in nodes[key].members
      ensures Steady() || Quiet() ==> !world.member(n).cancelled
      ensures Steady() ==> world.member(n).ranking == Unranked
      ensures Steady() && leaking && m.kind != Strategies.ModelMember ==>
                |nodes[key].members| == 1 && |Resolve(tables, m)| <= 1
    {
      hide PlansHeaviest, PlansMeeting, IdsTellPathsApart, GraphWalk.Resolved;
    }

    lemma BuiltInPlanning(key: string)
      requires key in nodes
      ensures AllBuiltIn(nodes) || Steady() || Quiet() ==> nodes[key].planning.BuiltIn?
    {
      hide Insisting, PlansHeaviest, Idle, PlansMeeting, IdsTellPathsApart, GraphWalk.Resolved;
    }

    lemma SteadyVisit(n: nat, c: Candidate)
      ensures Steady() && c.id != watched ==> world.visit(n, c).gate.Skips?
      ensures Steady() && c.id == watched ==>
                if leaking then Leaking(world.visit(n, c)) else Rejecting(world.visit(n, c))
      ensures Steady() ==>
                if leaking then mayWrap && (safety == Never || safety == BeforeDispatch) else safety == OnRejection
    {
      hide PlansHeaviest, IdsTellPathsApart, GraphWalk.Resolved;
    }

    lemma QuietVisit(n: nat, c: Candidate)
      ensures Quiet() ==> world.visit(n, c).gate.Skips?
    {
      hide PlansMeeting, GraphWalk.Resolved;
    }

    lemma TalliedVisit(c: Candidate, key: Option<Key>, choice: VisitChoice, step: Step, sent: seq<Dispatch>, log: Log)
      requires Tallied(c, key, choice, step, sent) && log.dispatches == sent && c.serves
      requires key.Some? ==> safety == WithKey
      requires Steady() ==> c.id == watched && if leaking then Leaking(choice) else Rejecting(choice)
      requires !Quiet()
      ensures Counts(log, Weight()(c)) && CandidateEnd(step)
    {
      hide Insisting, PlansHeaviest, AllBuiltIn, OneCandidateANode, GraphWalk.Resolved, IdsTellPathsApart, Rejecting,
           Leaking, Quiet;
      RequestsToOne(sent, c.id, watched);
    }

    // ----- Counting ---------------------------------------------------------------------

    lemma AddCounts(a: Log, b: Log, x: nat, y: nat)
      requires Counts(a, x) && Counts(b, y)
      ensures Counts(Append(a, b), x + y)
    {
      hide Steady, AllBuiltIn;
      RequestsConcat(a.dispatches, b.dispatches, watched);
    }

    lemma FewerCounted(log: Log, x: nat, y: nat)
      requires Counts(log, x) && x <= y && (Steady() ==> x == y)
      ensures Counts(log, y)
    {
      hide Steady, AllBuiltIn;
    }

    lemma PrefixWeighsLess(log: Log, routes: seq<Candidate>, i: nat, candidates: seq<Candidate>)
      requires i <= |routes| && Counts(log, Weigh(routes[..i], Weight())) && multiset(routes) <= multiset(candidates)
      requires Steady() ==> i == |routes| && routes == candidates
      ensures Counts(log, Weigh(candidates, Weight()))
    {
      hide Steady, AllBuiltIn, Share;
      assert routes == routes[..i] + routes[i..];
      WeighConcat(routes[..i], routes[i..], Weight());
      FewerWeighLess(routes, candidates, Weight());
    }

    lemma PlanPrefix(node: Node, choice: NodeChoice, log: Log, i: nat, open: set<string>)
      requires i <= |Planned(node, choice)| && PlansWell(node, choice, open)
      requires Counts(log, MembersLoad(nodes, tables, Weight(), node, Planned(node, choice)[..i], open))
      requires Steady() ==> i == |Planned(node, choice)|
      requires AllBuiltIn(nodes) || Steady() ==> node.planning.BuiltIn?
      ensures Counts(log, PlanLoad(nodes, tables, Weight(), node, open))
    {
      hide Steady, Quiet, AllBuiltIn, Strategies.Plan, Strategies.Start, Heaviest, PlanLoad, MemberLoad, Share,
           AnyMeets, MemberMeets;
      var plan := Planned(node, choice);
      assert plan == plan[..i] + plan[i..];
      LoadConcat(nodes, tables, Weight(), node, plan[..i], plan[i..], open);
      if node.planning.BuiltIn? {
        PlansWeighNoMore(nodes, tables, Weight(), node, choice.state, open);
      }
    }

    lemma PlanOfOne(node: Node, choice: NodeChoice)
      ensures node.planning.BuiltIn? && |node.members| == 1 ==> |Planned(node, choice)| == 1
    {
    }
  }

  lemma GoodRunKeepsItsPromise(safety: Safety, mayWrap: bool, log: Log, hi: nat, goesOn: bool)
    requires Good(safety, mayWrap, log, 0, hi, 0, goesOn)
    ensures log.released == log.acquired && |log.finalized| == |log.dispatches|
    ensures !mayWrap && (safety == Never || safety == BeforeDispatch) ==> |log.dispatches| <= 1
    ensures !mayWrap && safety == WithKey ==> |log.dispatches| <= 2
    ensures !mayWrap && safety == WithKey && |log.dispatches| == 2 ==> KeyedReplay(log.dispatches[0], log.dispatches[1])
    ensures !mayWrap && safety == OnRejection ==>
              forall i :: 0 <= i < |log.dispatches| - 1 ==> log.dispatches[i].answer == Classified(Rejected)
  {
    if !mayWrap {
      match safety {
        case Never => UnsafeSendsAtMostOnce(safety, log.dispatches);
        case BeforeDispatch => UnsafeSendsAtMostOnce(safety, log.dispatches);
        case WithKey => KeyedSendsAtMostTwice(log.dispatches);
        case OnRejection =>
          forall i | 0 <= i < |log.dispatches| - 1
            ensures log.dispatches[i].answer == Classified(Rejected)
          {
            RejectionPrecedesEveryReplay(log.dispatches, i);
          }
      }
    }
  }
}
