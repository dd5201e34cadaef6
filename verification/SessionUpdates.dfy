/** Coalescing of private session updates: what the one or two publications of a finished
    collection do to the kernel's session state is what applying each captured update in
    turn would have done. */
module SessionUpdates {
  import opened Sums

  datatype Proof = Proof(id: nat, valid: bool)

  /** Provider data as the validator sees it. */
  datatype Data = Data(id: nat, size: nat, json: bool)

  datatype SessionState = SessionState(responseId: string, data: Option<Data>, signatures: seq<Proof>,
    expiresAt: Option<int>, storeVersion: nat)

  const CLEARED := SessionState("", None, [], None, 0)

  const MAX_RESPONSE_ID := 4096
  const MAX_DATA := 64 * 1024
  const MAX_PROOFS := 256

  /** The store version is bookkeeping, not content. */
  predicate Empty(s: SessionState)
  {
    s.responseId == "" && s.data.None? && s.signatures == [] && s.expiresAt.None?
  }

  predicate ValidState(s: SessionState)
  {
    && |s.responseId| <= MAX_RESPONSE_ID
    && (s.data.Some? ==> s.data.value.size <= MAX_DATA && s.data.value.json)
    && |s.signatures| <= MAX_PROOFS && forall i :: 0 <= i < |s.signatures| ==> s.signatures[i].valid
  }

  /** Fields an update leaves empty keep their value. */
  function Merge(target: SessionState, update: SessionState): SessionState
  {
    SessionState(
      if update.responseId != "" then update.responseId else target.responseId,
      if update.data.Some? then update.data else target.data,
      if update.signatures != [] then update.signatures else target.signatures,
      if update.expiresAt.Some? then update.expiresAt else target.expiresAt,
      target.storeVersion)
  }

  /** One update in turn: an empty one clears everything, store version included. */
  function Apply(state: SessionState, update: SessionState): SessionState
  {
    if Empty(update) then CLEARED else Merge(state, update)
  }

  function ApplyAll(state: SessionState, updates: seq<SessionState>): SessionState
  {
    if updates == [] then state else Apply(ApplyAll(state, updates[..|updates| - 1]), updates[|updates| - 1])
  }

  /** The kernel discards a publication that is not valid. */
  function Publish(state: SessionState, update: SessionState): SessionState
  {
    if !ValidState(update) then state else Apply(state, update)
  }

  function PublishAll(state: SessionState, updates: seq<SessionState>): SessionState
  {
    if updates == [] then state else Publish(PublishAll(state, updates[..|updates| - 1]), updates[|updates| - 1])
  }

  // ----- What the collector holds ------------------------------------------------------

  /** The updates since the last reset, merged. */
  function Collected(updates: seq<SessionState>): SessionState
  {
    if updates == [] then CLEARED else Apply(Collected(updates[..|updates| - 1]), updates[|updates| - 1])
  }

  predicate HasReset(updates: seq<SessionState>)
  {
    exists i :: 0 <= i < |updates| && Empty(updates[i])
  }

  predicate AllValid(updates: seq<SessionState>)
  {
    forall i :: 0 <= i < |updates| ==> ValidState(updates[i])
  }

  lemma MergeAssociates(a: SessionState, b: SessionState, c: SessionState)
    ensures Merge(Merge(a, b), c) == Merge(a, Merge(b, c))
    ensures Empty(Merge(b, c)) <==> Empty(b) && Empty(c)
  {
  }

  lemma MergingIntoNothing(s: SessionState)
    requires s.storeVersion == 0
    ensures Merge(CLEARED, s) == s
  {
  }

  lemma {:induction false} CollectedIsFresh(updates: seq<SessionState>)
    ensures Collected(updates).storeVersion == 0
    ensures updates != [] && !HasReset(updates) ==> !Empty(Collected(updates))
    decreases |updates|
  {
    if updates != [] {
      var front, last := updates[..|updates| - 1], updates[|updates| - 1];
      CollectedIsFresh(front);
      ResetOf(front, last);
      assert updates == front + [last];
    }
  }

  lemma ResetOf(front: seq<SessionState>, last: SessionState)
    ensures HasReset(front + [last]) <==> HasReset(front) || Empty(last)
  {
    var all := front + [last];
    if i :| 0 <= i < |front| && Empty(front[i]) {
      assert Empty(all[i]);
    }
    if Empty(last) {
      assert Empty(all[|front|]);
    }
  }

  /** The merged updates stay within the validator's limits. */
  lemma {:induction false} CollectedStaysValid(updates: seq<SessionState>)
    requires AllValid(updates)
    ensures ValidState(Collected(updates))
    decreases |updates|
  {
    if updates != [] {
      CollectedStaysValid(updates[..|updates| - 1]);
    }
  }

  /** Applying updates in turn comes to: the merged rest alone after a reset, and merged
      into the old state without one. */
  lemma {:induction false} ApplyingInTurn(state: SessionState, updates: seq<SessionState>)
    ensures ApplyAll(state, updates) ==
            if HasReset(updates) then Collected(updates) else if updates == [] then state
              else Merge(state, Collected(updates))
    decreases |updates|
  {
    if updates != [] {
      var front, last := updates[..|updates| - 1], updates[|updates| - 1];
      assert updates == front + [last];
      ApplyingInTurn(state, front);
      ResetOf(front, last);
      CollectedIsFresh(front);
      if !Empty(last) && !HasReset(front) && front != [] {
        MergeAssociates(state, Collected(front), last);
      }
      if front == [] {
        MergeAssociates(state, CLEARED, last);
      }
    }
  }

  /** What finishing publishes. */
  function Publications(updates: seq<SessionState>): seq<SessionState>
  {
    (if HasReset(updates) then [CLEARED] else []) + (if Empty(Collected(updates)) then [] else [Collected(updates)])
  }

  /** Coalescing is lossless: the publications are valid, so none is discarded, and they
      leave any session state as the updates in turn would. */
  lemma CoalescingIsLossless(state: SessionState, updates: seq<SessionState>)
    requires AllValid(updates)
    ensures |Publications(updates)| <= 2 && AllValid(Publications(updates))
    ensures PublishAll(state, Publications(updates)) == ApplyAll(state, updates)
  {
    ApplyingInTurn(state, updates);
    CollectedStaysValid(updates);
    CollectedIsFresh(updates);
    var c := Collected(updates);
    assert Empty(CLEARED) && ValidState(CLEARED);
    if HasReset(updates) {
      MergingIntoNothing(c);
      assert [CLEARED, c][..1] == [CLEARED] && [CLEARED][..0] == [];
      assert [CLEARED] + [] == [CLEARED] && [CLEARED] + [c] == [CLEARED, c];
      assert Empty(c) ==> c == CLEARED;
    } else {
      assert [] + [c] == [c] && [c][..0] == [];
    }
  }

  // ----- The collector ---------------------------------------------------------------------

  class Collector {
    var closed: bool
    var changed: bool
    var reset: bool
    var state: SessionState
    var failed: bool
    ghost var captured: seq<SessionState>

    ghost predicate Valid()
      reads this
    {
      && AllValid(captured) && state == Collected(captured)
      && (changed <==> captured != []) && (reset <==> HasReset(captured))
    }

    constructor ()
      ensures Valid() && captured == [] && !closed && !failed
    {
      closed, changed, reset, state, failed, captured := false, false, false, CLEARED, false, [];
    }

    /** Takes a valid update while open; a cancelled or invalid one fails the whole
        collection. */
    method Capture(update: SessionState, cancelled: bool)
      requires Valid()
      modifies this
      ensures Valid() && closed == old(closed)
      ensures captured == if old(closed || failed) || cancelled || !ValidState(update) then old(captured)
                          else old(captured) + [update]
      ensures failed == (old(failed) || (!old(closed) && (cancelled || !ValidState(update))))
    {
      if closed || failed {
        return;
      }
      if cancelled || !ValidState(update) {
        failed := true;
        return;
      }
      ResetOf(captured, update);
      assert (captured + [update])[..|captured|] == captured;
      changed := true;
      captured := captured + [update];
      if Empty(update) {
        state, reset := CLEARED, true;
        return;
      }
      state := Merge(state, update);
    }

    /** Closes the collection and returns what is published: nothing on failure or when the
        response was not accepted. */
    method Finish(accept: bool) returns (ok: bool, published: seq<SessionState>)
      requires Valid()
      modifies `closed
      ensures Valid() && closed && captured == old(captured)
      ensures ok == !failed
      ensures !ok || !accept ==> published == []
      ensures ok && accept ==> forall s :: PublishAll(s, published) == ApplyAll(s, captured)
    {
      closed := true;
      ok, published := !failed, [];
      if failed {
        return;
      }
      if accept && changed {
        if reset {
          published := published + [CLEARED];
        }
        if !Empty(state) {
          published := published + [state];
        }
      }
      if accept {
        CollectedIsFresh(captured);
        assert published == Publications(captured);
        forall s
          ensures PublishAll(s, published) == ApplyAll(s, captured)
        {
          CoalescingIsLossless(s, captured);
        }
      }
    }
  }
}
