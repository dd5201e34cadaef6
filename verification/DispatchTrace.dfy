/** What a whole run of `Execute` may send upstream, as a property of its trace. */
module DispatchTrace {
  import opened Sums
  import opened Replay

  /** A derived key is an injective digest of the client's key and the issuer. */
  datatype Key = Key(policy: Policy, clientKey: string, candidate: string)

  datatype Answer = NoAnswer | Classified(effect: Effect) | Rendered(completed: bool, clean: bool)

  /** One upstream request. `visit` numbers the candidate visits of the run;
      `leaked` says that the visit ended with an error that wraps "no route". */
  datatype Dispatch = Dispatch(
    visit: nat, candidate: string, key: Option<Key>, verb: string, url: string, media: string, at: int,
    answer: Answer, leaked: bool)

  datatype Status = Ok | Error | Cancelled

  datatype Finalization = Finalization(attempt: nat, status: Status)

  /** What one stretch of a run did. */
  datatype Log = Log(dispatches: seq<Dispatch>, acquired: seq<nat>, released: seq<nat>, finalized: seq<Finalization>)

  predicate ConfirmedRejection(safety: Safety, d: Dispatch)
  {
    safety == OnRejection && d.answer == Classified(Rejected)
  }

  predicate SameAction(a: Dispatch, b: Dispatch)
  {
    a.candidate == b.candidate && a.key == b.key && a.verb == b.verb && a.url == b.url && a.media == b.media
  }

  predicate KeyedReplay(a: Dispatch, b: Dispatch)
  {
    && a.key.Some? && SameAction(a, b)
    && WithinRetention(a.key.value.policy, a.at, b.at)
    && a.answer != Classified(Accepted) && !a.answer.Rendered?
  }

  /** A second request inside one candidate visit. */
  predicate Retried(safety: Safety, a: Dispatch, b: Dispatch)
  {
    && a.visit == b.visit && a.candidate == b.candidate
    && (ConfirmedRejection(safety, a) || (safety == WithKey && KeyedReplay(a, b)))
  }

  predicate Linked(safety: Safety, a: Dispatch, b: Dispatch)
  {
    Retried(safety, a, b) || (a.visit < b.visit && (ConfirmedRejection(safety, a) || a.leaked))
  }

  ghost predicate TraceOk(safety: Safety, t: seq<Dispatch>)
  {
    Links(safety, t) && Spread(t)
  }

  /** A run may go on after `t` only if its last request was confirmed rejected. */
  predicate Continuable(safety: Safety, t: seq<Dispatch>)
  {
    t == [] || ConfirmedRejection(safety, t[|t| - 1]) || t[|t| - 1].leaked
  }

  predicate Unleaked(t: seq<Dispatch>)
  {
    forall i :: 0 <= i < |t| ==> !t[i].leaked
  }

  predicate InVisits(t: seq<Dispatch>, lo: nat, hi: nat)
  {
    forall i :: 0 <= i < |t| ==> lo <= t[i].visit < hi
  }

  /** Admissions come in order, one visit each. */
  predicate Increasing(s: seq<nat>, lo: nat, hi: nat)
  {
    && (forall i :: 0 <= i < |s| ==> lo <= s[i] < hi)
    && (forall i, j :: 0 <= i < j < |s| ==> s[i] < s[j])
  }

  /** Only an admitted visit sends. */
  predicate SentWhileAdmitted(t: seq<Dispatch>, acquired: seq<nat>)
  {
    forall i :: 0 <= i < |t| ==> t[i].visit in acquired
  }

  /** How many requests a candidate got. */
  function Requests(t: seq<Dispatch>, id: string): nat
  {
    if t == [] then 0 else Requests(t[..|t| - 1], id) + if t[|t| - 1].candidate == id then 1 else 0
  }

  lemma {:induction false} RequestsConcat(a: seq<Dispatch>, b: seq<Dispatch>, id: string)
    ensures Requests(a + b, id) == Requests(a, id) + Requests(b, id)
    decreases |b|
  {
    if b == [] {
      assert a + b == a;
    } else {
      assert (a + b)[..|a + b| - 1] == a + b[..|b| - 1];
      RequestsConcat(a, b[..|b| - 1], id);
    }
  }

  lemma {:induction false} RequestsToOne(t: seq<Dispatch>, candidate: string, id: string)
    requires forall i :: 0 <= i < |t| ==> t[i].candidate == candidate
    ensures Requests(t, id) == if candidate == id then |t| else 0
  {
    if t != [] {
      RequestsToOne(t[..|t| - 1], candidate, id);
    }
  }

  lemma {:induction false} RequestsAreSent(t: seq<Dispatch>, id: string)
    ensures Requests(t, id) <= |t|
  {
    if t != [] {
      RequestsAreSent(t[..|t| - 1], id);
    }
  }

  predicate FinalizedOnce(dispatches: seq<Dispatch>, finalized: seq<Finalization>, base: nat)
  {
    && |finalized| == |dispatches|
    && forall i :: 0 <= i < |finalized| ==>
         && finalized[i].attempt == base + i
         && (finalized[i].status == Ok ==> dispatches[i].answer == Rendered(true, true))
         && (finalized[i].status == Error ==> dispatches[i].answer != Rendered(true, true))
  }

  /** A stretch that used visits `lo..hi`, started after `base` requests and, when
      `goesOn`, leaves the run free to try elsewhere. */
  ghost predicate Good(safety: Safety, mayWrap: bool, log: Log, lo: nat, hi: nat, base: nat, goesOn: bool)
  {
    && lo <= hi
    && TraceOk(safety, log.dispatches) && InVisits(log.dispatches, lo, hi)
    && (goesOn ==> Continuable(safety, log.dispatches))
    && (!mayWrap ==> Unleaked(log.dispatches))
    && SentWhileAdmitted(log.dispatches, log.acquired)
    && log.released == log.acquired && Increasing(log.acquired, lo, hi)
    && FinalizedOnce(log.dispatches, log.finalized, base)
  }

  function Append(a: Log, b: Log): Log
  {
    Log(a.dispatches + b.dispatches, a.acquired + b.acquired, a.released + b.released, a.finalized + b.finalized)
  }

  const EMPTY := Log([], [], [], [])

  lemma GoingOnLinks(safety: Safety, a: Dispatch, b: Dispatch)
    requires a.visit < b.visit && (ConfirmedRejection(safety, a) || a.leaked)
    ensures Linked(safety, a, b)
  {
  }

  ghost predicate Links(safety: Safety, t: seq<Dispatch>)
  {
    forall i {:trigger t[i]} :: 0 <= i < |t| - 1 ==> Linked(safety, t[i], t[i + 1])
  }

  ghost predicate Spread(t: seq<Dispatch>)
  {
    forall i {:trigger t[i]} :: 0 <= i < |t| - 2 ==> t[i].visit < t[i + 2].visit
  }

  lemma AppendLinks(safety: Safety, a: seq<Dispatch>, b: seq<Dispatch>)
    requires Links(safety, a) && Links(safety, b) && (a != [] && b != [] ==> Linked(safety, a[|a| - 1], b[0]))
    ensures Links(safety, a + b)
  {
    hide Linked;
    var t := a + b;
    forall i | 0 <= i < |t| - 1
      ensures Linked(safety, t[i], t[i + 1])
    {
      if i < |a| - 1 {
        assert t[i] == a[i] && t[i + 1] == a[i + 1];
      } else if i >= |a| {
        assert t[i] == b[i - |a|] && t[i + 1] == b[i - |a| + 1];
      }
    }
  }

  lemma AppendSpread(a: seq<Dispatch>, b: seq<Dispatch>, lo: nat, mid: nat, hi: nat)
    requires Spread(a) && Spread(b) && InVisits(a, lo, mid) && InVisits(b, mid, hi)
    ensures Spread(a + b)
  {
    var t := a + b;
    forall i | 0 <= i < |t| - 2
      ensures t[i].visit < t[i + 2].visit
    {
      if i + 2 < |a| {
        assert t[i] == a[i] && t[i + 2] == a[i + 2];
      } else if i < |a| {
        assert t[i] == a[i] && t[i + 2] == b[i + 2 - |a|];
      } else {
        assert t[i] == b[i - |a|] && t[i + 2] == b[i + 2 - |a|];
      }
    }
  }

  lemma AppendTraces(safety: Safety, a: seq<Dispatch>, b: seq<Dispatch>, lo: nat, mid: nat, hi: nat)
    requires TraceOk(safety, a) && InVisits(a, lo, mid) && Continuable(safety, a)
    requires TraceOk(safety, b) && InVisits(b, mid, hi)
    ensures TraceOk(safety, a + b)
  {
    if a != [] && b != [] {
      GoingOnLinks(safety, a[|a| - 1], b[0]);
    }
    hide Linked, ConfirmedRejection, Links, Spread;
    AppendLinks(safety, a, b);
    AppendSpread(a, b, lo, mid, hi);
  }

  /** Good stretches compose: this carries the claim through the recursion over
      nested models, members and candidates. */
  lemma AppendGood(safety: Safety, mayWrap: bool, a: Log, b: Log, lo: nat, mid: nat, hi: nat, base: nat, goesOn: bool)
    requires Good(safety, mayWrap, a, lo, mid, base, true)
    requires Good(safety, mayWrap, b, mid, hi, base + |a.dispatches|, goesOn)
    ensures Good(safety, mayWrap, Append(a, b), lo, hi, base, goesOn)
  {
    AppendTraces(safety, a.dispatches, b.dispatches, lo, mid, hi);
    hide TraceOk;
    AppendVisits(a.dispatches, b.dispatches, lo, mid, hi);
    AppendEnds(safety, a.dispatches, b.dispatches);
    AppendAdmissions(a, b, lo, mid, hi);
    AppendFinalizations(a.dispatches, a.finalized, b.dispatches, b.finalized, base);
    hide InVisits, Continuable, Unleaked, SentWhileAdmitted, Increasing, FinalizedOnce;
  }

  lemma AppendVisits(a: seq<Dispatch>, b: seq<Dispatch>, lo: nat, mid: nat, hi: nat)
    requires InVisits(a, lo, mid) && InVisits(b, mid, hi) && lo <= mid <= hi
    ensures InVisits(a + b, lo, hi)
  {
  }

  lemma AppendEnds(safety: Safety, a: seq<Dispatch>, b: seq<Dispatch>)
    ensures Continuable(safety, a) && Continuable(safety, b) ==> Continuable(safety, a + b)
    ensures Unleaked(a) && Unleaked(b) ==> Unleaked(a + b)
  {
    hide ConfirmedRejection;
    if b == [] {
      assert a + b == a;
    }
  }

  lemma AppendAdmissions(a: Log, b: Log, lo: nat, mid: nat, hi: nat)
    requires SentWhileAdmitted(a.dispatches, a.acquired) && SentWhileAdmitted(b.dispatches, b.acquired)
    requires Increasing(a.acquired, lo, mid) && Increasing(b.acquired, mid, hi) && lo <= mid <= hi
    ensures SentWhileAdmitted(a.dispatches + b.dispatches, a.acquired + b.acquired)
    ensures Increasing(a.acquired + b.acquired, lo, hi)
  {
  }

  lemma AppendFinalizations(a: seq<Dispatch>, fa: seq<Finalization>, b: seq<Dispatch>, fb: seq<Finalization>, base: nat)
    requires FinalizedOnce(a, fa, base) && FinalizedOnce(b, fb, base + |a|)
    ensures FinalizedOnce(a + b, fa + fb, base)
  {
  }

  // ----- What a good trace guarantees ---------------------------------------------

  lemma {:induction false} VisitsNeverGoBack(safety: Safety, t: seq<Dispatch>, i: nat, j: nat)
    requires TraceOk(safety, t) && i <= j < |t|
    ensures t[i].visit <= t[j].visit
    ensures j >= i + 2 ==> t[i].visit < t[j].visit
    decreases j - i
  {
    if i < j {
      assert Linked(safety, t[i], t[i + 1]);
      VisitsNeverGoBack(safety, t, i + 1, j);
      if j == i + 2 {
        assert t[i].visit < t[i + 2].visit;
      }
    }
  }

  /** No candidate visit sends three requests. */
  lemma {:induction false} AtMostTwoPerVisit(safety: Safety, t: seq<Dispatch>, i: nat, j: nat, k: nat)
    requires TraceOk(safety, t) && i < j < k < |t|
    ensures !(t[i].visit == t[j].visit == t[k].visit)
  {
    VisitsNeverGoBack(safety, t, i, k);
  }

  lemma UnsafeNeverLinks(safety: Safety, a: Dispatch, b: Dispatch)
    requires !a.leaked && (safety == Never || safety == BeforeDispatch)
    ensures !Linked(safety, a, b)
  {
  }

  lemma KeyedLink(a: Dispatch, b: Dispatch)
    requires !a.leaked && Linked(WithKey, a, b)
    ensures a.visit == b.visit && KeyedReplay(a, b)
  {
  }

  /** An operation that is unsafe to repeat reaches the upstream at most once. */
  lemma UnsafeSendsAtMostOnce(safety: Safety, t: seq<Dispatch>)
    requires TraceOk(safety, t) && Unleaked(t) && (safety == Never || safety == BeforeDispatch)
    ensures |t| <= 1
  {
    hide Linked;
    if |t| > 1 {
      UnsafeNeverLinks(safety, t[0], t[1]);
    }
  }

  /** With an idempotency key: at most two requests, the same action to the same
      candidate under the same key, the second inside the retention window. */
  lemma KeyedSendsAtMostTwice(t: seq<Dispatch>)
    requires TraceOk(WithKey, t) && Unleaked(t)
    ensures |t| <= 2
    ensures |t| == 2 ==> t[0].visit == t[1].visit && KeyedReplay(t[0], t[1])
  {
    hide Linked;
    if |t| > 1 {
      KeyedLink(t[0], t[1]);
      if |t| > 2 {
        KeyedLink(t[1], t[2]);
      }
    }
  }

  /** Replay on rejection: every request but the last was confirmed rejected. */
  lemma RejectionPrecedesEveryReplay(t: seq<Dispatch>, i: nat)
    requires TraceOk(OnRejection, t) && Unleaked(t) && i < |t| - 1
    ensures t[i].answer == Classified(Rejected)
  {
    assert Linked(OnRejection, t[i], t[i + 1]);
  }

  /** Each admission is given back once, and no visit is admitted twice. */
  lemma AdmissionsAreReturnedOnce(safety: Safety, mayWrap: bool, log: Log, lo: nat, hi: nat, base: nat, goesOn: bool,
                                  i: nat, j: nat)
    requires Good(safety, mayWrap, log, lo, hi, base, goesOn) && i < |log.acquired| && j < |log.released|
    ensures |log.released| == |log.acquired|
    ensures log.acquired[i] == log.released[j] <==> i == j
  {
  }
}
