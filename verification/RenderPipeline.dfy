/** The decoder-to-renderer pipeline of one response: byte budgets, failure latching, a
    completion that waits for the decoder, and the client writer that latches its first
    failure. What transforms, validators, renderers, hooks and the request's context do is
    the environment, a parameter; transforms keep an event's kind, as their registry
    enforces. */
module RenderPipeline {
  import opened Sums
  import SessionUpdates

  datatype Kind = Complete | Failure | UsageReport | Content

  datatype Artifact = Artifact(metaBytes: nat, hasBody: bool, sizeBytes: int)

  /** `described` says whether the event carries an error descriptor, `valid` whether that
      descriptor is well-formed. */
  datatype Event = Event(kind: Kind, bytes: nat, artifacts: seq<Artifact>, described: bool, valid: bool,
    responseId: string)

  datatype Err = Provider | Transform | Render | Client | Session | Truncated

  // ----- Budgets ------------------------------------------------------------------------

  function EventBytes(e: Event): nat
  {
    e.bytes + |e.responseId| + MetaBytes(e.artifacts)
  }

  function MetaBytes(artifacts: seq<Artifact>): nat
  {
    if artifacts == [] then 0 else MetaBytes(artifacts[..|artifacts| - 1]) + artifacts[|artifacts| - 1].metaBytes + 64
  }

  function BodyBytes(artifacts: seq<Artifact>): nat
  {
    if artifacts == [] then 0
    else
      var last := artifacts[|artifacts| - 1];
      BodyBytes(artifacts[..|artifacts| - 1]) + if last.hasBody && last.sizeBytes > 0 then last.sizeBytes else 0
  }

  predicate WellDescribed(e: Event)
  {
    if e.kind == Failure then e.described && e.valid else !e.described
  }

  /** What one event takes from a budget; unlimited budgets do not count. */
  function Charge(maxOutput: int, e: Event): nat
  {
    if maxOutput > 0 then EventBytes(e) + BodyBytes(e.artifacts) else 0
  }

  function Charges(maxOutput: int, events: seq<Event>): nat
  {
    if events == [] then 0 else Charges(maxOutput, events[..|events| - 1]) + Charge(maxOutput, events[|events| - 1])
  }

  lemma {:induction false} BodiesGrow(artifacts: seq<Artifact>, i: nat)
    requires i <= |artifacts|
    ensures BodyBytes(artifacts[..i]) <= BodyBytes(artifacts)
    decreases |artifacts|
  {
    if i < |artifacts| {
      assert artifacts[..|artifacts| - 1][..i] == artifacts[..i];
      BodiesGrow(artifacts[..|artifacts| - 1], i);
    } else {
      assert artifacts[..i] == artifacts;
    }
  }

  lemma OneMoreCharge(maxOutput: int, accepted: seq<Event>, e: Event)
    ensures Charges(maxOutput, accepted + [e]) == Charges(maxOutput, accepted) + Charge(maxOutput, e)
  {
    assert (accepted + [e])[..|accepted|] == accepted;
  }

  class EventBudget {
    const maxEvent: int
    const maxOutput: int
    var total: int
    ghost var accepted: seq<Event>

    /** The total is what the accepted events come to, and never exceeds the limit. */
    ghost predicate Valid()
      reads this
    {
      total == Charges(maxOutput, accepted) && (maxOutput > 0 ==> total <= maxOutput)
    }

    constructor (maxEvent: int, maxOutput: int)
      ensures this.maxEvent == maxEvent && this.maxOutput == maxOutput && Valid() && total == 0
    {
      this.maxEvent, this.maxOutput, total, accepted := maxEvent, maxOutput, 0, [];
    }

    /** Accepts an event exactly when it is well described, small enough by itself, and
        fits into what is left. */
    method Consume(e: Event) returns (ok: bool)
      requires Valid()
      modifies this
      ensures Valid()
      ensures ok <==> WellDescribed(e) && (maxEvent > 0 ==> EventBytes(e) <= maxEvent)
                      && (maxOutput > 0 ==> old(total) + Charge(maxOutput, e) <= maxOutput)
      ensures total == old(total) + if ok then Charge(maxOutput, e) else 0
      ensures accepted == if ok then old(accepted) + [e] else old(accepted)
    {
      hide Charges;
      if !WellDescribed(e) {
        return false;
      }
      OneMoreCharge(maxOutput, accepted, e);
      if maxEvent <= 0 && maxOutput <= 0 {
        accepted := accepted + [e];
        return true;
      }
      var eventBytes, bodyBytes := e.bytes + |e.responseId|, 0;
      for i := 0 to |e.artifacts|
        invariant eventBytes == e.bytes + |e.responseId| + MetaBytes(e.artifacts[..i])
        invariant bodyBytes == if maxOutput > 0 then BodyBytes(e.artifacts[..i]) else 0
        invariant maxOutput > 0 ==> bodyBytes <= maxOutput
      {
        var a := e.artifacts[i];
        assert e.artifacts[..i + 1][..i] == e.artifacts[..i];
        eventBytes := eventBytes + a.metaBytes + 64;
        if a.hasBody && a.sizeBytes > 0 && maxOutput > 0 {
          if a.sizeBytes > maxOutput - bodyBytes {
            BodiesGrow(e.artifacts, i + 1);
            return false;
          }
          bodyBytes := bodyBytes + a.sizeBytes;
        }
      }
      assert e.artifacts[..|e.artifacts|] == e.artifacts;
      if maxEvent > 0 && eventBytes > maxEvent {
        return false;
      }
      if maxOutput > 0 {
        var remaining := maxOutput - total;
        if eventBytes > remaining || bodyBytes > remaining - eventBytes {
          return false;
        }
        total := total + eventBytes + bodyBytes;
      }
      accepted := accepted + [e];
      ok := true;
    }
  }

  // ----- The client writer ----------------------------------------------------------------

  /** `headers` and `sent` record what reached the underlying writer. */
  class CommitWriter {
    const maxBytes: int
    var committed: bool
    var written: int
    var failure: Option<Err>
    var cancelled: bool
    ghost var headers: nat
    ghost var sent: nat

    /** The limit holds, at most one explicit header is sent, and bytes without one are
        possible only when the request was cancelled meanwhile. */
    ghost predicate Valid()
      reads this
    {
      && 0 <= written == sent && (maxBytes > 0 ==> written <= maxBytes)
      && headers == (if committed then 1 else 0)
      && (written > 0 ==> committed || cancelled)
    }

    constructor (maxBytes: int)
      ensures this.maxBytes == maxBytes && Valid() && failure.None? && !committed && written == 0
    {
      this.maxBytes := maxBytes;
      committed, written, failure, cancelled, headers, sent := false, 0, None, false, 0, 0;
    }

    /** A cancelled context stays cancelled. */
    method Cancelled() returns (c: bool)
      requires Valid()
      modifies `cancelled
      ensures Valid() && c == cancelled && (old(cancelled) ==> cancelled)
    {
      var now: bool := *;
      cancelled := cancelled || now;
      c := cancelled;
    }

    method WriteHeader()
      requires Valid()
      modifies this
      ensures Valid() && failure == old(failure) && written == old(written)
      ensures old(committed) || old(failure).Some? ==> committed == old(committed)
      ensures old(failure).None? && !old(committed) ==> committed || cancelled
      ensures old(cancelled) ==> cancelled
    {
      if failure.Some? {
        return;
      }
      var c := Cancelled();
      if c || committed {
        return;
      }
      committed, headers := true, headers + 1;
    }

    method Latch(err: Option<Err>)
      requires Valid()
      modifies `failure
      ensures Valid() && failure == if old(failure).None? then err else old(failure)
    {
      if err.Some? && failure.None? {
        failure := err;
      }
    }

    /** Once a write failed, nothing reaches the client any more and the first failure
        stays. */
    method Write(size: nat) returns (n: nat, err: Option<Err>)
      requires Valid()
      modifies this
      ensures Valid() && n <= size && written == old(written) + n
      ensures old(failure).Some? ==> n == 0 && err == old(failure) && failure == old(failure)
      ensures err.Some? ==> failure.Some?
      ensures maxBytes > 0 && size > maxBytes - old(written) ==> n == 0 && failure.Some?
    {
      n := 0;
      if failure.Some? {
        return 0, failure;
      }
      var c := Cancelled();
      if c {
        Latch(Some(Client));
        return 0, Some(Client);
      }
      if maxBytes > 0 && size > maxBytes - written {
        Latch(Some(Render));
        return 0, Some(Render);
      }
      if !committed {
        WriteHeader();
      }
      n :| 0 <= n <= size;
      written, sent := written + n, sent + n;
      var broken: bool := *;
      err := if broken then Some(Client) else None;
      Latch(err);
    }

    /** Flushing commits the header, and latches like a write. */
    method FlushError() returns (err: Option<Err>)
      requires Valid()
      modifies this
      ensures Valid() && written == old(written)
      ensures old(failure).Some? ==> err == old(failure) && failure == old(failure) && committed == old(committed)
      ensures err.Some? ==> failure.Some?
      ensures err.None? ==> committed || cancelled
    {
      if failure.Some? {
        return failure;
      }
      var c := Cancelled();
      if c {
        Latch(Some(Client));
        return Some(Client);
      }
      if !committed {
        WriteHeader();
      }
      var broken: bool := *;
      err := if broken then Some(Client) else None;
      Latch(err);
    }
  }

  // ----- The pipeline -------------------------------------------------------------------

  /** What the renderer was handed, with the decoder event it came from. */
  datatype Delivery = Delivery(event: Event, source: Event)

  function NonCompletions(events: seq<Event>): seq<Event>
  {
    if events == [] then []
    else
      var front := NonCompletions(events[..|events| - 1]);
      if events[|events| - 1].kind == Complete then front else front + [events[|events| - 1]]
  }

  function Sources(log: seq<Delivery>): seq<Event>
  {
    seq(|log|, i requires 0 <= i < |log| => log[i].source)
  }

  function Shown(log: seq<Delivery>): seq<Event>
  {
    seq(|log|, i requires 0 <= i < |log| => log[i].event)
  }

  function Owed(maxOutput: int, pending: Option<Event>): nat
  {
    if pending.Some? then Charge(maxOutput, pending.value) else 0
  }

  /** What was delivered, and the completion that still waits, has been paid from the
      provider's budget, and what is shown after a transform from the client's too. */
  ghost predicate Paid(log: seq<Delivery>, pending: Option<Event>, transforms: bool, maxOutput: int, provider: int,
                       client: int)
  {
    && Charges(maxOutput, Sources(log)) + Owed(maxOutput, pending) <= provider
    && (transforms ==> Charges(maxOutput, Shown(log)) <= client)
  }

  lemma PaidOneMore(log: seq<Delivery>, d: Delivery, pending: Option<Event>, transforms: bool, maxOutput: int,
                    provider: int, client: int, paid: bool)
    requires Paid(log, pending, transforms, maxOutput, provider, client)
    requires paid ==> pending == Some(d.source)
    ensures Paid(log + [d], if paid then None else pending, transforms, maxOutput,
                 provider + (if paid then 0 else Charge(maxOutput, d.source)), client + Charge(maxOutput, d.event))
  {
    assert Sources(log + [d]) == Sources(log) + [d.source] && Shown(log + [d]) == Shown(log) + [d.event];
    OneMoreCharge(maxOutput, Sources(log), d.source);
    OneMoreCharge(maxOutput, Shown(log), d.event);
  }

  lemma PaidStays(log: seq<Delivery>, pending: Option<Event>, transforms: bool, maxOutput: int, provider: int,
                  client: int, more: nat, moreClient: nat)
    requires Paid(log, pending, transforms, maxOutput, provider, client)
    ensures Paid(log, pending, transforms, maxOutput, provider + more, client + moreClient)
  {
  }

  /** Merging the response ID of a repeated completion is paid by that completion. */
  lemma MergedCompletion(maxOutput: int, first: Event, repeated: Event)
    requires first.responseId == ""
    ensures Charge(maxOutput, first.(responseId := repeated.responseId)) <= Charge(maxOutput, first)
              + Charge(maxOutput, repeated)
  {
  }

  /** The deliveries so far: decoder events in decoder order, a prefix once something
      failed. */
  ghost predicate InOrder(log: seq<Delivery>, events: seq<Event>, failed: bool)
  {
    && |log| <= |NonCompletions(events)| && Sources(log) == NonCompletions(events)[..|log|]
    && (forall i :: 0 <= i < |log| ==> log[i].event.kind == log[i].source.kind)
    && (!failed ==> |log| == |NonCompletions(events)|)
  }

  lemma OneMoreDelivery(log: seq<Delivery>, events: seq<Event>, d: Delivery)
    requires InOrder(log, events, false) && d.source.kind != Complete && d.event.kind == d.source.kind
    ensures InOrder(log + [d], events + [d.source], false)
  {
    assert (events + [d.source])[..|events|] == events;
    assert Sources(log + [d]) == Sources(log) + [d.source];
  }

  lemma NothingDelivered(log: seq<Delivery>, events: seq<Event>, e: Event, failed: bool)
    requires InOrder(log, events, failed) && (failed || e.kind == Complete)
    ensures InOrder(log, events + [e], failed)
  {
    assert (events + [e])[..|events|] == events;
    assert NonCompletions(events + [e])[..|log|] == NonCompletions(events)[..|log|];
  }

  /** The whole log of a session: decoder events in order, then perhaps the one
      completion, then perhaps one error event. */
  ghost predicate SessionLog(log: seq<Delivery>, events: seq<Event>, delivered: nat, completed: bool, failed: bool)
  {
    && |log| == delivered + (if completed then 1 else 0) + (if failed then 1 else 0)
    && InOrder(log[..delivered], events, true)
    && (completed ==> log[delivered].event.kind == Complete && delivered == |NonCompletions(events)|)
    && (failed ==> log[|log| - 1].event.kind == Failure)
  }

  // ----- What the decoder and the rest of the world do ------------------------------------

  /** A decoder emits events and, privately, captures session updates. */
  datatype Step = Emits(event: Event) | Captures(update: SessionUpdates.SessionState)

  function Emitted(steps: seq<Step>): seq<Event>
  {
    if steps == [] then []
    else
      var front, last := Emitted(steps[..|steps| - 1]), steps[|steps| - 1];
      if last.Emits? then front + [last.event] else front
  }

  function Captured(steps: seq<Step>): seq<SessionUpdates.SessionState>
  {
    if steps == [] then []
    else
      var front, last := Captured(steps[..|steps| - 1]), steps[|steps| - 1];
      if last.Captures? then front + [last.update] else front
  }

  predicate Invalid(s: Step)
  {
    s.Captures? && !SessionUpdates.ValidState(s.update)
  }

  ghost predicate InvalidUpdate(steps: seq<Step>)
  {
    exists i :: 0 <= i < |steps| && Invalid(steps[i])
  }

  lemma OneMoreStep(front: seq<Step>, last: Step)
    ensures Emitted(front + [last]) == Emitted(front) + if last.Emits? then [last.event] else []
    ensures Captured(front + [last]) == Captured(front) + if last.Captures? then [last.update] else []
    ensures InvalidUpdate(front + [last]) <==> InvalidUpdate(front) || Invalid(last)
  {
    hide InvalidUpdate, Invalid;
    var steps := front + [last];
    assert steps[..|front|] == front && steps[|front|] == last;
    OneMoreUpdate(front, last);
  }

  lemma OneMoreUpdate(front: seq<Step>, last: Step)
    ensures InvalidUpdate(front + [last]) <==> InvalidUpdate(front) || Invalid(last)
  {
    hide Invalid;
    var steps := front + [last];
    if i :| 0 <= i < |front| && Invalid(front[i]) {
      assert Invalid(steps[i]);
    }
    if Invalid(last) {
      assert Invalid(steps[|front|]);
    }
  }

  /** Answers to what the pipeline asks at each moment: whether the context is cancelled,
      whether the party asked refuses, what a transform makes of an event, and whether
      output had started when an error is to be shown. */
  datatype Env = Env(cancels: nat -> bool, refuses: nat -> bool, reshape: (nat, Event) -> Event, started: bool)

  class Pipeline {
    const transforms: bool
    const env: Env
    var clock: nat
    const provider: EventBudget
    const client: EventBudget
    var log: seq<Delivery>
    var emitFailure: Option<Err>
    var pending: Option<Event>
    var providerComplete: bool
    var cancelled: bool
    var finishes: nat
    var completeCalls: nat
    var errorCalls: nat

    ghost predicate Valid()
      reads this, provider, client
    {
      && provider != client && provider.Valid() && client.Valid() && client.maxOutput == provider.maxOutput
      && (pending.Some? ==> pending.value.kind == Complete)
      && (providerComplete <==> pending.Some?)
    }

    /** Nobody refuses, cancels or transforms, and the budgets are unlimited. */
    ghost predicate Calm()
      reads provider
    {
      !transforms && provider.maxEvent <= 0 && provider.maxOutput <= 0 && forall n :: !env.cancels(n) && !env.refuses(n)
    }

    constructor (transforms: bool, maxEvent: int, maxOutput: int, env: Env)
      ensures Valid() && fresh(provider) && fresh(client) && log == [] && emitFailure.None? && pending.None?
      ensures finishes == 0 && completeCalls == 0 && errorCalls == 0 && !cancelled
      ensures provider.maxEvent == maxEvent && provider.maxOutput == maxOutput && client.maxOutput == maxOutput
      ensures this.transforms == transforms && this.env == env
    {
      this.transforms, this.env, clock := transforms, env, 0;
      provider := new EventBudget(maxEvent, maxOutput);
      client := new EventBudget(maxEvent, maxOutput);
      log, emitFailure, pending, providerComplete, cancelled := [], None, None, false, false;
      finishes, completeCalls, errorCalls := 0, 0, 0;
    }

    /** A cancelled context stays cancelled. */
    method Cancelled() returns (c: bool)
      modifies `cancelled, `clock
      ensures c == cancelled && (old(cancelled) ==> cancelled)
      ensures Calm() && !old(cancelled) ==> !cancelled
    {
      cancelled, clock := cancelled || env.cancels(clock), clock + 1;
      c := cancelled;
    }

    method Refuses(origin: Err) returns (err: Option<Err>)
      modifies `clock
      ensures err.Some? ==> err.value == origin
      ensures Calm() ==> err.None?
    {
      err := if env.refuses(clock) then Some(origin) else None;
      clock := clock + 1;
    }

    /** The event the client may see: transformed, and charged to the client's budget. */
    method Shape(e: Event) returns (shown: Event, err: Option<Err>)
      requires client.Valid()
      modifies client, `clock
      ensures Calm() ==> err.None?
      ensures client.Valid() && shown.kind == e.kind && (!transforms ==> shown == e)
                && client.total >= old(client.total)
      ensures err.None? && transforms ==> client.total == old(client.total) + Charge(client.maxOutput, shown)
    {
      shown, err := e, None;
      if !transforms {
        return;
      }
      err := Refuses(Transform);
      if err.Some? { return; }
      shown := env.reshape(clock, e).(kind := e.kind);
      var fits := client.Consume(shown);
      err := if fits then None else Some(Transform);
    }

    /** Cancellation, the provider's budget, and closing the usage record. */
    method PayProvider(e: Event, providerBudgeted: bool) returns (err: Option<Err>)
      requires provider.Valid()
      modifies `cancelled, `clock, provider
      ensures Calm() && !old(cancelled) && (!providerBudgeted ==> WellDescribed(e)) ==> err.None? && !cancelled
      ensures provider.Valid() && (old(cancelled) ==> cancelled) && provider.total >= old(provider.total)
      ensures providerBudgeted ==> provider.total == old(provider.total)
      ensures err.None? && !providerBudgeted ==> provider.total == old(provider.total) + Charge(provider.maxOutput, e)
    {
      var c := Cancelled();
      if c {
        return Some(Provider);
      }
      if !providerBudgeted {
        var fits := provider.Consume(e);
        if !fits {
          return Some(Provider);
        }
      }
      if e.kind == Complete {
        err := Refuses(Provider);
      } else {
        err := None;
      }
    }

    /** One event through budget, transform, validation and renderer. */
    method EmitOne(e: Event, providerBudgeted: bool) returns (err: Option<Err>, ghost shown: Option<Event>)
      requires Valid()
      modifies `log, `cancelled, `clock, provider, client
      ensures Valid() && (old(cancelled) ==> cancelled) && (err.None? ==> !cancelled)
      ensures Calm() && !old(cancelled) && old(emitFailure).None? && (!providerBudgeted ==> WellDescribed(e)) ==>
                err.None?
      ensures old(emitFailure).Some? ==> err == old(emitFailure) && shown.None?
      ensures shown.Some? ==> shown.value.kind == e.kind && log == old(log) + [Delivery(shown.value, e)]
      ensures shown.None? ==> log == old(log) && err.Some?
      ensures provider.total >= old(provider.total) && client.total >= old(client.total)
      ensures providerBudgeted ==> provider.total == old(provider.total)
      ensures shown.Some? && !providerBudgeted ==> provider.total == old(provider.total) + Charge(provider.maxOutput, e)
      ensures shown.Some? && transforms ==> client.total == old(client.total) + Charge(client.maxOutput, shown.value)
    {
      hide Charges, Charge, WellDescribed, EventBytes;
      shown := None;
      if emitFailure.Some? {
        return emitFailure, None;
      }
      err := PayProvider(e, providerBudgeted);
      if err.Some? { return; }
      var visible;
      visible, err := Shape(e);
      if err.Some? { return; }
      var c := Cancelled();
      if c {
        return Some(Transform), None;
      }
      err := Refuses(Provider); // operation event validation
      if err.Some? { return; }
      log, shown := log + [Delivery(visible, e)], Some(visible);
      err := Refuses(Render);
      if err.Some? { return; }
      c := Cancelled();
      err := if c then Some(Render) else None;
    }

    /** What the decoder calls for each event. A completion only waits; the first failure
        of anything is kept. */
    method Emit(e: Event, ghost seen: seq<Event>) returns (err: Option<Err>)
      requires Valid() && InOrder(log, seen, emitFailure.Some?)
      requires Paid(log, pending, transforms, provider.maxOutput, provider.total, client.total)
      modifies this, provider, client
      ensures Valid() && InOrder(log, seen + [e], emitFailure.Some?)
      ensures Paid(log, pending, transforms, provider.maxOutput, provider.total, client.total)
      ensures (err.Some? <==> emitFailure.Some?)
                && (old(emitFailure).Some? ==> emitFailure == old(emitFailure) && log == old(log))
      ensures old(pending).Some? ==> pending.Some?
      ensures finishes == old(finishes) && completeCalls == old(completeCalls) && errorCalls == old(errorCalls)
      ensures old(cancelled) ==> cancelled
      ensures Calm() && !old(cancelled) && old(emitFailure).None? && WellDescribed(e) ==>
                emitFailure.None? && !cancelled
      ensures e.kind == Complete && emitFailure.None? ==> pending.Some?
    {
      hide InOrder, Paid, Charge, Charges, WellDescribed;
      ghost var paidProvider, paidClient := provider.total, client.total;
      if e.kind == Complete {
        NothingDelivered(log, seen, e, emitFailure.Some?);
        if emitFailure.Some? {
          return emitFailure;
        }
        FailureKeepsOrder(log, seen + [e]);
        var c := Cancelled();
        if c {
          emitFailure := Some(Provider);
          return emitFailure;
        }
        var fits := provider.Consume(e);
        if !fits {
          emitFailure := Some(Provider);
          return emitFailure;
        }
        CompletionPaid(log, pending, transforms, provider.maxOutput, paidProvider, paidClient, e);
        if pending.Some? {
          if pending.value.responseId == "" {
            pending := Some(pending.value.(responseId := e.responseId));
          }
          return None;
        }
        pending, providerComplete := Some(e), true;
        return None;
      }
      ghost var before := log;
      ghost var shown;
      err, shown := EmitOne(e, false);
      DeliveryPaid(before, log, pending, transforms, provider.maxOutput, paidProvider, paidClient, provider.total,
                   client.total, e, shown, false);
      if emitFailure.None? {
        Delivered(before, log, seen, e, shown);
      } else {
        NothingDelivered(log, seen, e, true);
      }
      if err.Some? && emitFailure.None? {
        emitFailure := err;
      }
    }

    /** A private update joins the collection, unless the context was cancelled. */
    method Capture(update: SessionUpdates.SessionState, session: SessionUpdates.Collector, ghost front: seq<Step>)
      requires Collects(session, front)
      modifies `cancelled, `clock, session
      ensures Collects(session, front + [Captures(update)])
      ensures old(cancelled) ==> cancelled
      ensures Calm() && !old(cancelled) ==> !cancelled
    {
      OneMoreStep(front, Captures(update));
      hide SessionUpdates.ValidState;
      var c := Cancelled();
      session.Capture(update, c);
    }

    /** Unless the context was cancelled meanwhile, the collection failed exactly when some
        update was invalid, and otherwise holds every update. */
    ghost predicate Collects(session: SessionUpdates.Collector, steps: seq<Step>)
      reads this, session
    {
      && session.Valid() && !session.closed
      && (!cancelled ==> (session.failed <==> InvalidUpdate(steps)))
      && (!session.failed ==> session.captured == Captured(steps))
    }

    /** Runs the decoder to its end; it may go on after a failure and may fail itself. */
    method Decode(steps: seq<Step>, session: SessionUpdates.Collector) returns (err: Option<Err>)
      requires Valid() && log == [] && emitFailure.None? && pending.None? && Collects(session, [])
      modifies this, provider, client, session
      ensures Valid() && InOrder(log, Emitted(steps), emitFailure.Some?) && Collects(session, steps)
      ensures Paid(log, pending, transforms, provider.maxOutput, provider.total, client.total)
      ensures err.None? ==> emitFailure.None?
      ensures finishes == old(finishes) && completeCalls == old(completeCalls) && errorCalls == old(errorCalls)
      ensures Calm() && !old(cancelled) && WellEmitted(steps) ==> err.None? && !cancelled
      ensures emitFailure.None? && Completes(steps) ==> pending.Some?
    {
      hide InOrder, Paid, Charges, WellDescribed, Emitted, Captured, InvalidUpdate;
      NothingYet(Emitted(steps));
      NothingDone();
      BudgetsAreNatural(provider, client);
      NothingPaid(transforms, provider.maxOutput, provider.total, client.total);
      assert steps[..0] == [];
      for i := 0 to |steps|
        invariant Valid() && InOrder(log, Emitted(steps[..i]), emitFailure.Some?) && Collects(session, steps[..i])
        invariant Paid(log, pending, transforms, provider.maxOutput, provider.total, client.total)
        invariant finishes == old(finishes) && completeCalls == old(completeCalls) && errorCalls == old(errorCalls)
        invariant Calm() && !old(cancelled) && WellEmitted(steps) ==> emitFailure.None? && !cancelled
        invariant emitFailure.None? && Completes(steps[..i]) ==> pending.Some?
      {
        assert steps[..i + 1] == steps[..i] + [steps[i]];
        OneMoreStep(steps[..i], steps[i]);
        match steps[i]
        case Emits(e) =>
          Unaffected(session, steps[..i], steps[i]);
          var refused := Emit(e, Emitted(steps[..i]));
        case Captures(update) =>
          assert Emitted(steps[..i]) + [] == Emitted(steps[..i]);
          Capture(update, session, steps[..i]);
      }
      assert steps[..|steps|] == steps;
      err := Refuses(Provider);
      if emitFailure.Some? {
        err := emitFailure;
      }
    }

    lemma Unaffected(session: SessionUpdates.Collector, front: seq<Step>, s: Step)
      requires s.Emits?
      ensures Captured(front + [s]) == Captured(front) && (InvalidUpdate(front + [s]) <==> InvalidUpdate(front))
    {
      OneMoreStep(front, s);
    }

    /** Everything up to the completion: None means that the decoder succeeded and the
        completion was accepted. */
    method DecodeAndComplete(steps: seq<Step>, session: SessionUpdates.Collector)
      returns (err: Option<Err>, ghost delivered: nat, ghost completed: bool)
      requires Valid() && log == [] && emitFailure.None? && pending.None? && Collects(session, [])
      modifies this, provider, client, session
      ensures Valid() && SessionLog(log, Emitted(steps), delivered, completed, false) && Collects(session, steps)
      ensures Paid(log, None, transforms, provider.maxOutput, provider.total, client.total)
      ensures err.None? ==> completed && !cancelled
      ensures finishes == old(finishes) && completeCalls == old(completeCalls) && errorCalls == old(errorCalls)
      ensures Calm() && !old(cancelled) && WellEmitted(steps) && Completes(steps) ==> err.None?
    {
      hide InOrder, SessionLog, Paid, Charges, Charge, InvalidUpdate, Captured, WellDescribed;
      err := Decode(steps, session);
      delivered, completed := |log|, false;
      NoLongerOwed(log, pending, transforms, provider.maxOutput, provider.total, client.total);
      OnlyEvents(log, Emitted(steps), emitFailure.Some?);
      if err.Some? { return; }
      var c := Cancelled();
      if c {
        return Some(Provider), delivered, completed;
      }
      if !providerComplete {
        return Some(Truncated), delivered, completed;
      }
      ghost var before := log;
      ghost var paidProvider, paidClient := provider.total, client.total;
      ghost var shown;
      err, shown := EmitOne(pending.value, true);
      DeliveryPaid(before, log, pending, transforms, provider.maxOutput, paidProvider, paidClient, provider.total,
                   client.total, pending.value, shown, true);
      NoLongerOwed(log, pending, transforms, provider.maxOutput, provider.total, client.total);
      if shown.Some? {
        ThenCompletion(before, Emitted(steps), Delivery(shown.value, pending.value));
        completed := true;
      }
      emitFailure := err;
    }

    /** The whole response. `begun` says whether the renderer opened a session, `accepted`
        whether it took the completion without complaint, `late` whether the context was
        cancelled when an error was to be shown, and `published` are the session states
        handed to the kernel. */
    method RenderResponse(steps: seq<Step>, hasRenderer: bool)
      returns (err: Option<Err>, published: seq<SessionUpdates.SessionState>,
               ghost begun: bool, ghost delivered: nat, ghost completed: bool, ghost accepted: bool, ghost failed: bool,
                 ghost late: bool)
      requires Valid() && log == [] && emitFailure.None? && pending.None? && finishes == 0 && completeCalls == 0
                 && errorCalls == 0
      modifies this, provider, client
      ensures Valid() && SessionLog(log, Emitted(steps), delivered, completed, failed)
      ensures finishes == (if begun then 1 else 0) && (!begun ==> log == [])
      ensures err.None? ==> begun && completed && accepted && !failed
      ensures completeCalls == (if err.None? then 1 else 0) && errorCalls == (if err.Some? then 1 else 0)
      ensures accepted ==> begun && completed && (failed <==> InvalidUpdate(steps) && env.started && !late)
      ensures accepted && InvalidUpdate(steps) ==> err == Some(Session)
      ensures !accepted || InvalidUpdate(steps) ==> published == []
      ensures accepted && !InvalidUpdate(steps) ==>
                forall s :: SessionUpdates.PublishAll(s, published) == SessionUpdates.ApplyAll(s, Captured(steps))
      ensures Paid(log[..delivered + (if completed then 1 else 0)], None, transforms, provider.maxOutput,
                provider.total, client.total)
      ensures hasRenderer && Calm() && !old(cancelled) && WellEmitted(steps) && Completes(steps) ==> accepted && !late
    {
      hide InOrder, SessionLog, Paid, InvalidUpdate, Captured, Emitted, WellDescribed, Charges, Completes, WellEmitted;
      hide SessionUpdates.PublishAll, SessionUpdates.ApplyAll, SessionUpdates.AllValid, SessionUpdates.Collected,
           SessionUpdates.HasReset;
      begun, delivered, completed, accepted, failed, late, published := false, 0, false, false, false, false, [];
      NothingYet(Emitted(steps));
      EmptySession(Emitted(steps));
      NothingDone();
      BudgetsAreNatural(provider, client);
      NothingPaid(transforms, provider.maxOutput, provider.total, client.total);
      assert log[..0] == [];
      var c := Cancelled();
      var refused := Refuses(Render);
      if c || !hasRenderer || refused.Some? {
        errorCalls := errorCalls + 1;
        return Some(Render), published, begun, delivered, completed, accepted, failed, late;
      }
      begun := true;
      var session := new SessionUpdates.Collector();
      err, delivered, completed := DecodeAndComplete(steps, session);
      accepted := err.None?;
      ghost var decoded := log;
      SessionSize(log, Emitted(steps), delivered, completed);
      assert decoded[..|decoded|] == decoded;
      var collected;
      collected, published := session.Finish(err.None?);
      if err.None? && !collected {
        err := Some(Session);
      }
      if err.Some? {
        failed, late := ProjectError(Emitted(steps), delivered, completed);
      }
      assert log[..|decoded|] == decoded;
      err := FinishSession(err);
    }

    /** Finishes the begun session and reports the outcome to exactly one hook. */
    method FinishSession(failure: Option<Err>) returns (err: Option<Err>)
      modifies `cancelled, `clock, `finishes, `completeCalls, `errorCalls
      ensures finishes == old(finishes) + 1 && (failure.Some? ==> err == failure)
      ensures completeCalls == old(completeCalls) + (if err.None? then 1 else 0)
      ensures errorCalls == old(errorCalls) + (if err.Some? then 1 else 0)
    {
      finishes := finishes + 1;
      var finishErr := Refuses(Render);
      var c := Cancelled();
      err := if failure.Some? then failure else if finishErr.Some? then finishErr else if c then Some(Render) else None;
      if err.Some? {
        errorCalls := errorCalls + 1;
      } else {
        completeCalls := completeCalls + 1;
      }
    }

    /** An error reaches the renderer only on a response that already started. */
    method ProjectError(ghost events: seq<Event>, ghost delivered: nat, ghost completed: bool)
      returns (ghost failed: bool, ghost late: bool)
      requires Valid() && SessionLog(log, events, delivered, completed, false)
      modifies `log, `cancelled, `clock
      ensures Valid() && SessionLog(log, events, delivered, completed, failed) && old(log) <= log
      ensures late == cancelled && (failed <==> env.started && !late)
      ensures Calm() && !old(cancelled) ==> !late
    {
      hide SessionLog;
      failed := false;
      var c := Cancelled();
      late := c;
      if !c && env.started {
        var e := Event(Failure, 0, [], true, true, "");
        ThenError(log, events, delivered, completed, Delivery(e, e));
        log := log + [Delivery(e, e)];
        failed := true;
      }
    }
  }

  /** Every emitted event is well described. */
  ghost predicate WellEmitted(steps: seq<Step>)
  {
    forall i :: 0 <= i < |steps| && steps[i].Emits? ==> WellDescribed(steps[i].event)
  }

  ghost predicate Completes(steps: seq<Step>)
  {
    exists i :: 0 <= i < |steps| && steps[i].Emits? && steps[i].event.kind == Complete
  }

  lemma NothingDone()
    ensures Emitted([]) == [] && Captured([]) == [] && !InvalidUpdate([])
  {
  }

  /** An accepted completion followed by an error: the decoder emits a completion and
      captures an update the validator rejects. */
  method CompletionThenError() returns (p: Pipeline)
    ensures |p.log| == 2 && p.log[0].event.kind == Complete && p.log[1].event.kind == Failure
    ensures p.finishes == 1 && p.errorCalls == 1
  {
    var calm := Env((n: nat) => false, (n: nat) => false, (n: nat, e: Event) => e, true);
    p := new Pipeline(false, 0, 0, calm);
    var done := Event(Complete, 0, [], false, false, "");
    var broken := SessionUpdates.SessionState("", Some(SessionUpdates.Data(0, 0, false)), [], None, 0);
    var steps := [Emits(done), Captures(broken)];
    assert Invalid(steps[1]) && steps[0].event.kind == Complete && WellEmitted(steps);
    var err, published;
    ghost var begun, delivered, completed, accepted, failed, late;
    err, published, begun, delivered, completed, accepted, failed, late := p.RenderResponse(steps, true);
    assert accepted && failed;
    NothingDone();
    OneMoreStep([], Emits(done));
    OneMoreStep([] + [Emits(done)], Captures(broken));
    assert steps == [] + [Emits(done)] + [Captures(broken)];
    assert Emitted(steps) == [done];
    assert NonCompletions([done]) == [] by {
      assert [done][..0] == [];
    }
  }

  lemma SessionSize(log: seq<Delivery>, events: seq<Event>, delivered: nat, completed: bool)
    requires SessionLog(log, events, delivered, completed, false)
    ensures |log| == delivered + if completed then 1 else 0
  {
  }

  /** What the renderer was handed, completion included, never comes to more than the
      operation's output limit, before and after the transform. */
  lemma DeliveredFitsTheLimit(log: seq<Delivery>, transforms: bool, provider: EventBudget, client: EventBudget)
    requires provider.Valid() && client.Valid() && provider.maxOutput == client.maxOutput && provider.maxOutput > 0
    requires Paid(log, None, transforms, provider.maxOutput, provider.total, client.total)
    ensures Charges(provider.maxOutput, Sources(log)) <= provider.maxOutput
    ensures transforms ==> Charges(provider.maxOutput, Shown(log)) <= provider.maxOutput
  {
  }

  lemma EmptySession(events: seq<Event>)
    ensures SessionLog([], events, 0, false, false)
  {
  }

  /** A completion that passed the budget is paid, whether it waits, merges or repeats. */
  lemma CompletionPaid(log: seq<Delivery>, pending: Option<Event>, transforms: bool, maxOutput: int, provider: int,
                       client: int, e: Event)
    requires Paid(log, pending, transforms, maxOutput, provider, client)
    ensures Paid(log, pending, transforms, maxOutput, provider + Charge(maxOutput, e), client)
    ensures pending.None? ==> Paid(log, Some(e), transforms, maxOutput, provider + Charge(maxOutput, e), client)
    ensures pending.Some? && pending.value.responseId == "" ==>
              Paid(log, Some(pending.value.(responseId := e.responseId)), transforms, maxOutput,
                provider + Charge(maxOutput, e), client)
  {
    hide Charge, Charges;
    if pending.Some? && pending.value.responseId == "" {
      MergedCompletion(maxOutput, pending.value, e);
    }
  }

  lemma DeliveryPaid(before: seq<Delivery>, log: seq<Delivery>, pending: Option<Event>, transforms: bool,
                     maxOutput: int,
                     provider: int, client: int, provider': int, client': int, e: Event, shown: Option<Event>,
                       paid: bool)
    requires Paid(before, pending, transforms, maxOutput, provider, client)
    requires paid ==> pending == Some(e)
    requires shown.Some? ==> log == before + [Delivery(shown.value, e)]
    requires shown.None? ==> log == before
    requires provider' >= provider && client' >= client
    requires shown.Some? && !paid ==> provider' == provider + Charge(maxOutput, e)
    requires shown.Some? && transforms ==> client' == client + Charge(maxOutput, shown.value)
    ensures Paid(log, if paid && shown.Some? then None else pending, transforms, maxOutput, provider', client')
  {
    hide Charge, Charges;
    if shown.None? {
      PaidStays(before, pending, transforms, maxOutput, provider, client, provider' - provider, client' - client);
    } else {
      PaidOneMore(before, Delivery(shown.value, e), pending, transforms, maxOutput, provider, client, paid);
    }
  }

  lemma NoLongerOwed(log: seq<Delivery>, pending: Option<Event>, transforms: bool, maxOutput: int, provider: int,
                     client: int)
    ensures Paid(log, pending, transforms, maxOutput, provider, client) ==>
              Paid(log, None, transforms, maxOutput, provider, client)
  {
  }

  lemma BudgetsAreNatural(provider: EventBudget, client: EventBudget)
    requires provider.Valid() && client.Valid()
    ensures provider.total >= 0 && client.total >= 0
  {
  }

  lemma NothingPaid(transforms: bool, maxOutput: int, provider: nat, client: nat)
    ensures Paid([], None, transforms, maxOutput, provider, client)
  {
  }

  lemma FailureKeepsOrder(log: seq<Delivery>, events: seq<Event>)
    requires InOrder(log, events, false)
    ensures InOrder(log, events, true)
  {
  }

  lemma Delivered(before: seq<Delivery>, log: seq<Delivery>, seen: seq<Event>, e: Event, shown: Option<Event>)
    requires InOrder(before, seen, false) && e.kind != Complete
    requires shown.Some? ==> shown.value.kind == e.kind && log == before + [Delivery(shown.value, e)]
    requires shown.None? ==> log == before
    ensures shown.Some? ==> InOrder(log, seen + [e], false)
    ensures InOrder(log, seen + [e], true)
  {
    if shown.None? {
      FailureKeepsOrder(log, seen);
      NothingDelivered(log, seen, e, true);
    } else {
      OneMoreDelivery(before, seen, Delivery(shown.value, e));
    }
  }

  lemma NothingYet(events: seq<Event>)
    ensures InOrder([], [], false)
  {
  }

  lemma OnlyEvents(log: seq<Delivery>, events: seq<Event>, failed: bool)
    requires InOrder(log, events, failed)
    ensures SessionLog(log, events, |log|, false, false)
    ensures !failed ==> |log| == |NonCompletions(events)|
  {
    assert log[..|log|] == log;
  }

  lemma ThenCompletion(log: seq<Delivery>, events: seq<Event>, d: Delivery)
    requires SessionLog(log, events, |log|, false, false) && |log| == |NonCompletions(events)|
               && d.event.kind == Complete
    ensures SessionLog(log + [d], events, |log|, true, false)
  {
    assert (log + [d])[..|log|] == log[..|log|];
  }

  lemma ThenError(log: seq<Delivery>, events: seq<Event>, delivered: nat, completed: bool, d: Delivery)
    requires SessionLog(log, events, delivered, completed, false) && d.event.kind == Failure
    ensures SessionLog(log + [d], events, delivered, completed, true)
  {
    assert (log + [d])[..delivered] == log[..delivered];
  }

  // ----- What a session log says -----------------------------------------------------------

  lemma {:induction false} NoCompletionsIn(events: seq<Event>, i: nat)
    requires i < |NonCompletions(events)|
    ensures NonCompletions(events)[i].kind != Complete
    decreases |events|
  {
    if events != [] && i < |NonCompletions(events[..|events| - 1])| {
      NoCompletionsIn(events[..|events| - 1], i);
    }
  }

  /** A renderer sees at most one completion, and after it nothing but an error. */
  lemma OneCompletionAtTheEnd(log: seq<Delivery>, events: seq<Event>, delivered: nat, completed: bool, failed: bool,
                              i: nat)
    requires SessionLog(log, events, delivered, completed, failed) && i < |log| && log[i].event.kind == Complete
    ensures completed && i == delivered && i + 1 + (if failed then 1 else 0) == |log|
  {
    if i < delivered {
      assert log[..delivered][i].event.kind == log[..delivered][i].source.kind;
      assert Sources(log[..delivered])[i] == NonCompletions(events)[i];
      NoCompletionsIn(events, i);
    }
  }
}
