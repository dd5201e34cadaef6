/** The session table object: its maps are updated in place, one method per critical
    section, each proved to be the function of the same name in `AuthSessions`.
    Closing a channel twice would be a run-time panic; here it is a precondition. */
module AuthSessionTable {
  import opened Sums
  import opened AuthSessions

  datatype Mode = New | Resume

  datatype OpenOutcome = Refused | Resuming(active: Id) | Admitted(chan: Chan)

  lemma PruneNothing(s: State, now: int)
    ensures PruneOnly(s, {}, now) == s
  {
  }

  /** Pruning one more session after `done` is pruning them together: the order of
      the walk over the table does not matter. */
  lemma {:induction false} PruneOneMore(s: State, done: set<Id>, id: Id, now: int)
    requires Index(s.byID, s.byConnection) && id in s.byID && id !in done
    ensures var t := PruneOnly(s, done, now);
            && id in t.byID && t.byID[id] == s.byID[id]
            && PruneOnly(s, done + {id}, now) == if !Prunable(s, id, now) then t else PruneOne(t, id, now)
  {
    PruneOneSession(s, done, id, now);
    PruneOneConnection(s, done, id, now);
    hide Prunable, Cleared, Active, Index;
  }

  lemma PruneOneSession(s: State, done: set<Id>, id: Id, now: int)
    requires id in s.byID && id !in done
    ensures var t := PruneOnly(s, done, now);
            && id in t.byID && t.byID[id] == s.byID[id]
            && PruneOnly(s, done + {id}, now).byID == if !Prunable(s, id, now) then t.byID
                                                      else PruneOne(t, id, now).byID
  {
    hide Cleared, Unlink;
  }

  lemma PruneOneConnection(s: State, done: set<Id>, id: Id, now: int)
    requires Index(s.byID, s.byConnection) && id in s.byID && id !in done
    ensures var t := PruneOnly(s, done, now);
            && id in t.byID
            && PruneOnly(s, done + {id}, now).byConnection ==
               if !Prunable(s, id, now) then t.byConnection else Unlink(t.byConnection, s.byID[id].conn, id)
  {
    hide Cleared;
  }

  function PruneOne(s: State, id: Id, now: int): State
    requires id in s.byID
  {
    var x := s.byID[id];
    s.(byID := if Active(x) then s.byID[id := Cleared(x, Expired, now)] else s.byID - {id},
       byConnection := Unlink(s.byConnection, x.conn, id))
  }

  lemma OneMoreWaiter(byID: map<Id, Session>, visited: set<Id>, id: Id, chan: Chan)
    requires visited <= byID.Keys && id in byID && id !in visited
    ensures |Waiters(Restrict(byID, visited + {id}), chan)| ==
            |Waiters(Restrict(byID, visited), chan)| + if byID[id].done == Some(chan) then 1 else 0
  {
    var before, after := Waiters(Restrict(byID, visited), chan), Waiters(Restrict(byID, visited + {id}), chan);
    assert id !in before;
    assert after == before + if byID[id].done == Some(chan) then {id} else {};
  }

  lemma FirstHolder(byID: map<Id, Session>, running: map<Chan, Id>, closes: seq<nat>, visited: set<Id>, id: Id)
    requires Channels(byID, running, closes) && visited <= byID.Keys && id in byID && id !in visited
               && byID[id].done.Some?
    ensures var chan := byID[id].done.value;
            chan < |closes| && closes[chan] == 0 && Waiters(Restrict(byID, visited), chan) == {}
  {
  }

  /** The channel of a running call is the one its session holds, still open, or closed
      already. */
  lemma ReturningCall(s: State, chan: Chan)
    requires Inv(s) && chan in s.running
    ensures chan < |s.closes|
    ensures var id := s.running[chan];
            if id in s.byID && s.byID[id].done.Some? then s.byID[id].done == Some(chan) && s.closes[chan] == 0
              else s.closes[chan] == 1
  {
    hide Index, Ids, Commits, Quiet, Rest, Waitable;
  }

  lemma ClosingOpen(closes: seq<nat>, chan: Chan)
    requires chan < |closes|
    ensures CloseChannel(closes, None) == closes
    ensures closes[chan] == 0 ==> CloseChannel(closes, Some(chan)) == closes[chan := 1]
  {
  }

  class Table {
    var closed: bool
    var byID: map<Id, Session>
    var byConnection: map<Conn, Id>
    var inFlight: set<Id>
    ghost var running: map<Chan, Id>
    var closes: seq<nat>
    ghost var issued: set<Id>
    ghost var commits: seq<Id>

    ghost function State(): State
      reads this
    {
      AuthSessions.State(closed, byID, byConnection, inFlight, running, closes, issued, commits)
    }

    constructor ()
      ensures State() == EMPTY
    {
      closed, byID, byConnection, inFlight := false, map[], map[], {};
      running, closes, issued, commits := map[], [], {}, [];
    }

    /** Closes a channel; it must be open. */
    method CloseDone(chan: Chan)
      requires chan < |closes| && closes[chan] == 0
      modifies `closes
      ensures closes == old(closes)[chan := 1]
    {
      closes := closes[chan := 1];
    }

    method Open(id: Id, conn: Conn, now: int, mode: Mode, supported: bool) returns (outcome: OpenOutcome)
      requires Inv(State()) && id !in issued
      modifies this
      ensures outcome.Admitted? ==>
                State() == AuthSessions.Open(old(State()), id, conn, now) && old(Admissible(State(), conn)) && supported
      ensures !outcome.Admitted? ==> State() == old(State())
      ensures outcome.Resuming? ==>
                mode == Resume && outcome.active in byID && Active(byID[outcome.active])
                  && byID[outcome.active].conn == conn
      ensures outcome == Refused ==>
                old(closed) || (mode == New && conn in old(byConnection)) || |old(byID)| >= MAX_SESSIONS || !supported
    {
      hide Calls, Channels, Waitable, Ids, Commits, Quiet;
      if closed {
        return Refused;
      }
      if conn in byConnection && mode == Resume {
        return Resuming(byConnection[conn]);
      }
      if |byID| >= MAX_SESSIONS || conn in byConnection {
        return Refused;
      }
      if !supported {
        return Refused;
      }
      var chan := |closes|;
      byID := byID[id := Opened(conn, now, chan)];
      byConnection := byConnection[conn := id];
      inFlight := inFlight + {id};
      running, closes, issued := running[chan := id], closes + [0], issued + {id};
      outcome := Admitted(chan);
    }

    method Advance(id: Id, revision: nat, kind: Kind, now: int) returns (chan: Option<Chan>)
      requires Inv(State()) && kind != NoCall
      modifies this
      ensures State() == AuthSessions.Advance(old(State()), id, revision, kind, now)
      ensures chan.Some? <==> old(CanAdvance(State(), id, revision, kind, now))
      ensures chan.Some? ==> chan.value in running && running[chan.value] == id
    {
      hide Index, Calls, Channels, Waitable, Ids, Commits, Quiet;
      if closed || id !in byID || byID[id].status != AwaitingUser || id in inFlight || byID[id].revision != revision
         || byID[id].expiresAt <= now {
        return None;
      }
      var x := byID[id];
      var isAwait := kind == Await && x.awaits && x.awaitStarted;
      if kind == Await && !isAwait {
        return None;
      }
      if isAwait {
        x := x.(awaits := false, awaitStarted := false);
      }
      chan := Some(|closes|);
      byID := byID[id := x.(done := chan, kind := kind)];
      inFlight := inFlight + {id};
      running, closes := running[|closes| := id], closes + [0];
    }

    method Prepare(id: Id, expiresAt: int, now: int, cancelled: bool) returns (ok: bool)
      modifies `byID
      ensures State() == AuthSessions.Prepare(old(State()), id, expiresAt, now, cancelled)
      ensures ok <==> old(CanPrepare(State(), id, expiresAt, now, cancelled))
    {
      if closed || id !in byID || id !in inFlight || !Active(byID[id]) || cancelled {
        return false;
      }
      if byID[id].expiresAt <= now || expiresAt > byID[id].expiresAt {
        return false;
      }
      byID := byID[id := byID[id].(expiresAt := expiresAt, callbacks := true)];
      ok := true;
    }

    method Apply(id: Id, t: Transition, now: int, cancelled: bool, granted: bool) returns (ok: bool)
      modifies `byID
      ensures State() == AuthSessions.Apply(old(State()), id, t, now, cancelled, granted)
      ensures ok <==> old(Applies(State(), id, t, now, cancelled, granted))
    {
      if cancelled || closed || id !in byID || !Active(byID[id]) || byID[id].expiresAt <= now {
        return false;
      }
      var x := byID[id];
      if !t.credential && t.expiresAt > x.expiresAt {
        return false;
      }
      if t.failure {
        byID := byID[id := x.(revision := x.revision + 1)];
        return true;
      }
      if !t.credential && !granted {
        return false;
      }
      x := x.(status := AwaitingUser, revision := x.revision + 1);
      if !t.credential {
        x := x.(pollAfter := t.pollAfter, awaits := t.awaits, awaitStarted := false, expiresAt := t.expiresAt,
                callbacks := t.callbacks);
      }
      byID := byID[id := x];
      ok := true;
    }

    method Commit(id: Id, now: int, cancelled: bool, swapped: bool) returns (ok: bool)
      modifies `byID, `byConnection, `commits
      ensures State() == AuthSessions.Commit(old(State()), id, now, cancelled, swapped)
      ensures ok <==> old(CanCommit(State(), id, now, cancelled)) && swapped
    {
      if closed || id !in byID || byID[id].status != AwaitingUser || byID[id].expiresAt <= now || cancelled
        || !swapped {
        return false;
      }
      var x := byID[id];
      byID := byID[id := Cleared(x, Completed, now).(committed := true)];
      if x.conn in byConnection && byConnection[x.conn] == id {
        byConnection := byConnection - {x.conn};
      }
      commits := commits + [id];
      ok := true;
    }

    method Finish(id: Id, status: Status, now: int) returns (ok: bool)
      requires Inv(State())
      modifies this
      ensures State() == AuthSessions.Finish(old(State()), id, status, now)
      ensures ok <==> old(CanFinish(State(), id))
    {
      hide Index, Calls, Waitable, Ids, Commits, Quiet, Rest;
      if id !in byID || !Active(byID[id]) {
        return false;
      }
      var x := byID[id];
      if x.done.Some? {
        CloseDone(x.done.value);
      }
      byID := byID[id := Cleared(x, status, now).(done := None)];
      if x.conn in byConnection && byConnection[x.conn] == id {
        byConnection := byConnection - {x.conn};
      }
      ok := true;
    }

    method Release(id: Id, ghost chan: Chan)
      requires Inv(State()) && chan in running && running[chan] == id
      modifies this
      ensures State() == AuthSessions.Release(old(State()), chan)
      ensures chan < |closes| && closes[chan] == 1
    {
      ReturningCall(State(), chan);
      hide Inv, CloseChannel, Released;
      inFlight := inFlight - {id};
      if id in byID {
        Settle(id, chan);
      }
      running := running - {chan};
    }

    /** Wakes the waiters of a returning call and starts the await its transition asked
        for. */
    method Settle(id: Id, ghost chan: Chan)
      requires id in byID && chan < |closes|
      requires if byID[id].done.Some? then byID[id].done == Some(chan) && closes[chan] == 0 else closes[chan] == 1
      modifies `byID, `closes
      ensures byID == old(byID)[id := Released(old(byID[id]), closed)]
      ensures closes == CloseChannel(old(closes), old(byID[id]).done) && chan < |closes| && closes[chan] == 1
    {
      ClosingOpen(closes, chan);
      hide CloseChannel;
      var x := byID[id];
      if x.done.Some? {
        CloseDone(x.done.value);
        x := x.(done := None);
      }
      if !closed && x.status == AwaitingUser && x.awaits && !x.awaitStarted {
        x := x.(awaitStarted := true);
      }
      byID := byID[id := x];
    }

    method Discard(id: Id)
      modifies `byID
      ensures State() == AuthSessions.Discard(old(State()), id)
    {
      if id in byID && !byID[id].committed && byID[id].status != Starting && byID[id].status != AwaitingUser {
        byID := byID - {id};
      }
    }

    method Prune(now: int) returns (released: set<Id>)
      requires Inv(State())
      modifies `byID, `byConnection
      ensures State() == AuthSessions.Prune(old(State()), now)
      ensures released == set id | id in old(byID) && Prunable(old(State()), id, now) && old(byID)[id].callbacks
    {
      hide Index, Calls, Channels, Waitable, Ids, Commits, Quiet, Rest, PruneOnly;
      var todo := byID.Keys;
      ghost var s := State();
      released := {};
      PruneNothing(s, now);
      assert s.byID.Keys - todo == {};
      while todo != {}
        invariant todo <= s.byID.Keys && State() == PruneOnly(s, s.byID.Keys - todo, now)
        invariant released == set id | id in s.byID.Keys - todo && Prunable(s, id, now) && s.byID[id].callbacks
        decreases |todo|
      {
        var id :| id in todo;
        PruneOneMore(s, s.byID.Keys - todo, id, now);
        assert s.byID.Keys - (todo - {id}) == s.byID.Keys - todo + {id};
        todo := todo - {id};
        if byID[id].callbacks && byID[id].expiresAt <= now && id !in inFlight {
          released := released + {id};
        }
        PruneSession(id, now);
      }
      assert s.byID.Keys - todo == s.byID.Keys;
    }

    method PruneSession(id: Id, now: int)
      requires id in byID
      modifies `byID, `byConnection
      ensures State() == if old(Prunable(State(), id, now)) then PruneOne(old(State()), id, now) else old(State())
    {
      var x := byID[id];
      if x.expiresAt > now || id in inFlight {
        return;
      }
      if x.status == Starting || x.status == AwaitingUser {
        byID := byID[id := Cleared(x, Expired, now)];
      } else {
        byID := byID - {id};
      }
      if x.conn in byConnection && byConnection[x.conn] == id {
        byConnection := byConnection - {x.conn};
      }
    }

    method CancelAll()
      requires Inv(State())
      modifies this
      ensures State() == AuthSessions.CancelAll(old(State()))
    {
      hide Inv, Waiters, CloseAll, Restrict;
      ghost var s := State();
      closed := true;
      var todo := byID.Keys;
      NoWaiters(s.byID, s.closes);
      assert byID.Keys - todo == {};
      while todo != {}
        invariant todo <= byID.Keys && closes == CloseAll(s.closes, Restrict(s.byID, s.byID.Keys - todo))
        invariant State() == s.(closed := true, closes := closes)
        decreases |todo|
      {
        var id :| id in todo;
        ghost var visited := byID.Keys - todo;
        assert byID.Keys - (todo - {id}) == visited + {id};
        ClosingOneMore(s, visited, id);
        todo := todo - {id};
        if byID[id].done.Some? {
          CloseDone(byID[id].done.value);
        }
      }
      assert s.byID.Keys - todo == s.byID.Keys;
      RestrictAll(s.byID);
      byID, byConnection, inFlight := map[], map[], {};
    }
  }

  lemma RestrictAll(byID: map<Id, Session>)
    ensures Restrict(byID, byID.Keys) == byID
  {
  }

  lemma NoWaiters(byID: map<Id, Session>, closes: seq<nat>)
    ensures CloseAll(closes, Restrict(byID, {})) == closes
  {
    assert forall c :: Waiters(Restrict(byID, {}), c) == {};
  }

  lemma ClosingOneMore(s: State, visited: set<Id>, id: Id)
    requires Inv(s) && visited <= s.byID.Keys && id in s.byID && id !in visited
    ensures var before := CloseAll(s.closes, Restrict(s.byID, visited));
            var after := CloseAll(s.closes, Restrict(s.byID, visited + {id}));
            var done := s.byID[id].done;
            && |before| == |s.closes|
            && (done.None? ==> after == before)
            && (done.Some? ==>
                  done.value < |before| && before[done.value] == 0 && after == before[done.value := 1])
  {
    hide Index, Calls, Waitable, Ids, Commits, Quiet, Rest;
    if s.byID[id].done.Some? {
      FirstHolder(s.byID, s.running, s.closes, visited, id);
    }
    hide Channels;
    forall c | 0 <= c < |s.closes|
      ensures CloseAll(s.closes, Restrict(s.byID, visited + {id}))[c] ==
              CloseAll(s.closes, Restrict(s.byID, visited))[c] + if s.byID[id].done == Some(c) then 1 else 0
    {
      OneMoreWaiter(s.byID, visited, id, c);
    }
  }
}
