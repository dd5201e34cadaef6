/** Accounting of upstream attempts: every attempt is finalized once, and every
    finalized attempt is queued, dropped or refused. */
module Usage {
  import opened DispatchTrace

  /** The kernel's bounded usage channel. `emitted` records every call of
      `EmitUsage`, `queued` and `refused` how those that were not dropped ended. */
  class UsageSink {
    const capacity: nat
    var closed: bool
    var events: seq<Finalization>
    var dropped: nat
    ghost var emitted: seq<Finalization>
    ghost var queued: nat
    ghost var refused: nat

    /** Conservation of finalized attempts. */
    ghost predicate Valid()
      reads this
    {
      |events| <= capacity && |emitted| == queued + dropped + refused
    }

    constructor (buffer: int)
      ensures Valid() && !closed && emitted == [] && events == [] && capacity >= 1
    {
      capacity := if buffer < 1 then 256 else buffer;
      closed, events, dropped, emitted, queued, refused := false, [], 0, [], 0, 0;
    }

    method EmitUsage(event: Finalization) returns (accepted: bool)
      requires Valid()
      modifies this
      ensures Valid() && closed == old(closed) && emitted == old(emitted) + [event]
      ensures accepted == (!old(closed) && |old(events)| < capacity)
      ensures accepted ==> events == old(events) + [event] && queued == old(queued) + 1 && dropped == old(dropped)
      ensures !accepted ==> events == old(events) && queued == old(queued)
      ensures refused == old(refused) + if old(closed) then 1 else 0
    {
      emitted := emitted + [event];
      if closed {
        refused := refused + 1;
        return false;
      }
      if |events| < capacity {
        events, queued, accepted := events + [event], queued + 1, true;
      } else {
        dropped, accepted := dropped + 1, false;
      }
    }

    method Close()
      requires Valid()
      modifies this
      ensures Valid() && closed && events == old(events) && emitted == old(emitted)
    {
      closed := true;
    }
  }

  type Report = nat

  /** One dispatch's accounting record. `usage` lists the merged reports. */
  class UsageAttempt {
    const sink: UsageSink
    const id: nat
    var usage: seq<Report>
    var enrichments: nat
    var enriched: bool
    var completed: bool
    var incomplete: bool
    var finalized: bool

    predicate Valid()
      reads this
    {
      enrichments == (if enriched then 1 else 0) && (completed ==> enriched)
    }

    constructor (sink: UsageSink, id: nat)
      ensures this.sink == sink && this.id == id && Valid() && !completed && !finalized && usage == []
    {
      this.sink, this.id := sink, id;
      usage, enrichments, enriched, completed, incomplete, finalized := [], 0, false, false, false, false;
    }

    /** Reports after completion or finalization change nothing. */
    method Observe(report: Report)
      requires Valid()
      modifies this
      ensures Valid() && finalized == old(finalized) && completed == old(completed) && incomplete == old(incomplete)
      ensures usage == if old(finalized || completed) then old(usage) else old(usage) + [report]
    {
      if finalized || completed {
        return;
      }
      usage := usage + [report];
    }

    /** The usage source is asked at most once per attempt. */
    method Enrich(enrichment: seq<Report>)
      requires Valid()
      modifies `usage, `enriched, `enrichments
      ensures Valid() && enriched
      ensures usage == if old(enriched) then old(usage) else old(usage) + enrichment
    {
      if enriched {
        return;
      }
      enriched, enrichments := true, enrichments + 1;
      usage := usage + enrichment;
    }

    /** The first completion decides; later ones repeat its verdict. */
    method Complete(report: Report, enrichment: seq<Report>, requiredMissing: bool) returns (failed: bool)
      requires Valid()
      modifies this
      ensures Valid() && completed && finalized == old(finalized)
      ensures failed == incomplete == if old(completed) then old(incomplete) else requiredMissing
      ensures usage == if old(completed) then old(usage)
                       else old(usage) + [report] + (if old(enriched) then [] else enrichment)
    {
      if completed {
        return incomplete;
      }
      usage := usage + [report];
      Enrich(enrichment);
      completed, incomplete := true, requiredMissing;
      failed := incomplete;
    }

    /** Finalizes and emits once; repeated calls emit nothing. */
    method Finish(cancelled: bool, status: Status)
      requires Valid() && sink.Valid()
      modifies this, sink
      ensures Valid() && sink.Valid() && finalized
      ensures sink.emitted == if old(finalized) then old(sink.emitted)
                              else old(sink.emitted) + [Finalization(id, if cancelled then Cancelled else status)]
    {
      if finalized {
        return;
      }
      Enrich([]);
      finalized := true;
      usage := [];
      var accepted := sink.EmitUsage(Finalization(id, if cancelled then Cancelled else status));
    }
  }
}
