/** The authorization setup protocol: the session table, its single in-flight driver
    call per session, revisions, the commit/cancel linearization point, and the
    channels that waiters of a call block on.

    Each critical section of the coordinator is one function of `State`; `Run` folds
    any interleaving of them. A running call is identified by the completion channel
    it was admitted with. */
module AuthSessions {
  import opened Sums
  import opened Sets

  type Id = nat
  type Conn = nat
  type Chan = nat

  datatype Status = Starting | AwaitingUser | Completed | Denied | Expired | Cancelled | Failed

  datatype Kind = NoCall | Submit | Poll | Await

  /** `done` is the completion channel of the call in flight, `committed` says that
      a credential was persisted, `callbacks` that callback grants are held. */
  datatype Session = Session(
    conn: Conn, status: Status, revision: nat, expiresAt: int, done: Option<Chan>, kind: Kind,
    pollAfter: nat, awaits: bool, awaitStarted: bool, callbacks: bool, committed: bool)

  /** `running` are the driver calls that have not returned, `closes` counts how
      often each channel was closed, `issued` are all session IDs ever handed out
      and `commits` the sessions that persisted a credential, in order. */
  datatype State = State(
    closed: bool, byID: map<Id, Session>, byConnection: map<Conn, Id>, inFlight: set<Id>,
    running: map<Chan, Id>, closes: seq<nat>, issued: set<Id>, commits: seq<Id>)

  const EMPTY := State(false, map[], map[], {}, map[], [], {}, [])

  const MAX_SESSIONS := 64
  const RETENTION := 5 * 60
  const MAX_DURATION: int := 60 * 60

  predicate Active(x: Session)
  {
    x.status == Starting || x.status == AwaitingUser
  }

  /** What a driver step asks for. */
  datatype Transition = Transition(failure: bool, credential: bool, pollAfter: nat, awaits: bool, expiresAt: int,
    callbacks: bool)

  // ----- Critical sections ----------------------------------------------------------

  predicate Admissible(s: State, conn: Conn)
  {
    !s.closed && |s.byID| < MAX_SESSIONS && conn !in s.byConnection
  }

  function Opened(conn: Conn, now: int, chan: Chan): Session
  {
    Session(conn, Starting, 0, now + MAX_DURATION, Some(chan), NoCall, 0, false, false, false, false)
  }

  function Open(s: State, id: Id, conn: Conn, now: int): State
  {
    if !Admissible(s, conn) then s
    else
      var chan := |s.closes|;
      s.(byID := s.byID[id := Opened(conn, now, chan)], byConnection := s.byConnection[conn := id],
         inFlight := s.inFlight + {id}, running := s.running[chan := id], closes := s.closes + [0],
         issued := s.issued + {id})
  }

  predicate CanAdvance(s: State, id: Id, revision: nat, kind: Kind, now: int)
  {
    && !s.closed && id in s.byID && s.byID[id].status == AwaitingUser && id !in s.inFlight
    && s.byID[id].revision == revision && s.byID[id].expiresAt > now
    && (kind == Await ==> s.byID[id].awaits && s.byID[id].awaitStarted)
  }

  function Advancing(x: Session, kind: Kind, chan: Chan): Session
  {
    x.(done := Some(chan), kind := kind, awaits := x.awaits && kind != Await,
      awaitStarted := x.awaitStarted && kind != Await)
  }

  function Advance(s: State, id: Id, revision: nat, kind: Kind, now: int): State
  {
    if !CanAdvance(s, id, revision, kind, now) then s
    else
      var chan := |s.closes|;
      s.(byID := s.byID[id := Advancing(s.byID[id], kind, chan)], inFlight := s.inFlight + {id},
         running := s.running[chan := id], closes := s.closes + [0])
  }

  /** A driver's transition is refused when the call was cancelled, the session is
      gone, over or expired, it would outlive its session, or its callback grants
      cannot be published. */
  predicate Applies(s: State, id: Id, t: Transition, now: int, cancelled: bool, granted: bool)
  {
    && !cancelled && !s.closed && id in s.byID && Active(s.byID[id]) && s.byID[id].expiresAt > now
    && (t.credential || t.expiresAt <= s.byID[id].expiresAt)
    && (t.failure || t.credential || granted)
  }

  function Applied(x: Session, t: Transition): Session
  {
    var next := x.(revision := x.revision + 1);
    if t.failure then next
    else if t.credential then next.(status := AwaitingUser)
    else next.(status := AwaitingUser, pollAfter := t.pollAfter, awaits := t.awaits, awaitStarted := false,
               expiresAt := t.expiresAt, callbacks := t.callbacks)
  }

  function Apply(s: State, id: Id, t: Transition, now: int, cancelled: bool, granted: bool): State
  {
    if !Applies(s, id, t, now, cancelled, granted) then s else s.(byID := s.byID[id := Applied(s.byID[id], t)])
  }

  /** Negotiating callback resources shortens the session's deadline and makes it the owner
      of callbacks, without a new revision. */
  predicate CanPrepare(s: State, id: Id, expiresAt: int, now: int, cancelled: bool)
  {
    && !s.closed && id in s.byID && id in s.inFlight && Active(s.byID[id]) && !cancelled
    && s.byID[id].expiresAt > now && expiresAt <= s.byID[id].expiresAt
  }

  function Prepare(s: State, id: Id, expiresAt: int, now: int, cancelled: bool): State
  {
    if !CanPrepare(s, id, expiresAt, now, cancelled) then s
    else s.(byID := s.byID[id := s.byID[id].(expiresAt := expiresAt, callbacks := true)])
  }

  function Cleared(x: Session, status: Status, now: int): Session
  {
    x.(status := status, expiresAt := now + RETENTION, kind := NoCall, pollAfter := 0, awaits := false,
       awaitStarted := false, callbacks := false)
  }

  predicate CanCommit(s: State, id: Id, now: int, cancelled: bool)
  {
    !s.closed && id in s.byID && s.byID[id].status == AwaitingUser && s.byID[id].expiresAt > now && !cancelled
  }

  /** The linearization point: the checks and the compare-and-swap are one step. */
  function Commit(s: State, id: Id, now: int, cancelled: bool, swapped: bool): State
  {
    if !CanCommit(s, id, now, cancelled) || !swapped then s
    else
      var x := s.byID[id];
      s.(byID := s.byID[id := Cleared(x, Completed, now).(committed := true)],
         byConnection := Unlink(s.byConnection, x.conn, id), commits := s.commits + [id])
  }

  function Unlink(byConnection: map<Conn, Id>, conn: Conn, id: Id): map<Conn, Id>
  {
    if conn in byConnection && byConnection[conn] == id then byConnection - {conn} else byConnection
  }

  function CloseChannel(closes: seq<nat>, done: Option<Chan>): seq<nat>
  {
    if done.Some? && done.value < |closes| then closes[done.value := closes[done.value] + 1] else closes
  }

  predicate CanFinish(s: State, id: Id)
  {
    id in s.byID && Active(s.byID[id])
  }

  function Finish(s: State, id: Id, status: Status, now: int): State
  {
    if !CanFinish(s, id) then s
    else
      var x := s.byID[id];
      s.(byID := s.byID[id := Cleared(x, status, now).(done := None)],
         byConnection := Unlink(s.byConnection, x.conn, id), closes := CloseChannel(s.closes, x.done))
  }

  /** What is left of a session when its call returns. An await the transition
      asked for starts now. */
  function Released(x: Session, closed: bool): Session
  {
    x.(done := None, awaitStarted := x.awaitStarted || (!closed && x.status == AwaitingUser && x.awaits))
  }

  function Release(s: State, chan: Chan): State
    requires chan in s.running
  {
    var id := s.running[chan];
    var t := s.(inFlight := s.inFlight - {id}, running := s.running - {chan});
    if id !in s.byID then t
    else t.(byID := s.byID[id := Released(s.byID[id], s.closed)], closes := CloseChannel(s.closes, s.byID[id].done))
  }

  /** An open that never delivered its session ID forgets a failed session. */
  function Discard(s: State, id: Id): State
  {
    if id in s.byID && !s.byID[id].committed && !Active(s.byID[id]) then s.(byID := s.byID - {id}) else s
  }

  predicate Prunable(s: State, id: Id, now: int)
  {
    id in s.byID && s.byID[id].expiresAt <= now && id !in s.inFlight
  }

  predicate Pruned(s: State, which: set<Id>, id: Id, now: int)
  {
    id in which && Prunable(s, id, now)
  }

  /** Of the sessions `which`, those expired without a call in flight: active ones
      become `Expired` and are retained, terminal ones are forgotten. */
  function PruneOnly(s: State, which: set<Id>, now: int): State
  {
    s.(byID := map id | id in s.byID && (Pruned(s, which, id, now) ==> Active(s.byID[id])) ::
                 if Pruned(s, which, id, now) then Cleared(s.byID[id], Expired, now) else s.byID[id],
       byConnection := map c | c in s.byConnection
         && !(Pruned(s, which, s.byConnection[c], now) && s.byID[s.byConnection[c]].conn == c)
                         :: s.byConnection[c])
  }

  function Prune(s: State, now: int): State
  {
    PruneOnly(s, s.byID.Keys, now)
  }

  ghost function Waiters(byID: map<Id, Session>, chan: Chan): set<Id>
  {
    set id | id in byID && byID[id].done == Some(chan)
  }

  /** Every channel still held by a session is closed, once for each holder. */
  ghost function CloseAll(closes: seq<nat>, byID: map<Id, Session>): seq<nat>
  {
    seq(|closes|, c requires 0 <= c < |closes| => closes[c] + |Waiters(byID, c)|)
  }

  ghost function CancelAll(s: State): State
  {
    s.(closed := true, byID := map[], byConnection := map[], inFlight := {}, closes := CloseAll(s.closes, s.byID))
  }

  // ----- Interleavings --------------------------------------------------------------

  datatype Action =
    | AOpen(id: Id, conn: Conn, now: int)
    | AAdvance(id: Id, revision: nat, kind: Kind, now: int)
    | APrepare(chan: Chan, expiresAt: int, now: int, cancelled: bool)
    | AApply(chan: Chan, t: Transition, now: int, cancelled: bool, granted: bool)
    | ACommit(chan: Chan, now: int, cancelled: bool, swapped: bool)
    | AFinish(id: Id, status: Status, now: int)
    | ARelease(chan: Chan)
    | ADiscard(chan: Chan)
    | APrune(now: int)
    | ACancelAll

  /** Session IDs are fresh random tokens; only a running call applies, commits,
      discards or releases; a session is finished with a terminal status. */
  predicate Enabled(s: State, a: Action)
  {
    match a
    case AOpen(id, _, _) => id !in s.issued
    case AAdvance(_, _, kind, _) => kind != NoCall
    case APrepare(chan, _, _, _) => chan in s.running
    case AApply(chan, _, _, _, _) => chan in s.running
    case ACommit(chan, _, _, _) => chan in s.running
    case AFinish(_, status, _) => status in {Denied, Expired, Cancelled, Failed}
    case ARelease(chan) => chan in s.running
    case ADiscard(chan) => chan in s.running
    case APrune(_) => true
    case ACancelAll => true
  }

  ghost function Step(s: State, a: Action): State
    requires Enabled(s, a)
  {
    match a
    case AOpen(id, conn, now) => Open(s, id, conn, now)
    case AAdvance(id, revision, kind, now) => Advance(s, id, revision, kind, now)
    case APrepare(chan, expiresAt, now, cancelled) => Prepare(s, s.running[chan], expiresAt, now, cancelled)
    case AApply(chan, t, now, cancelled, granted) => Apply(s, s.running[chan], t, now, cancelled, granted)
    case ACommit(chan, now, cancelled, swapped) => Commit(s, s.running[chan], now, cancelled, swapped)
    case AFinish(id, status, now) => Finish(s, id, status, now)
    case ARelease(chan) => Release(s, chan)
    case ADiscard(chan) => Discard(s, s.running[chan])
    case APrune(now) => Prune(s, now)
    case ACancelAll => CancelAll(s)
  }

  ghost function Run(s: State, actions: seq<Action>): State
    decreases |actions|
  {
    if actions == [] then s
    else if Enabled(s, actions[0]) then Run(Step(s, actions[0]), actions[1..])
    else Run(s, actions[1..])
  }

  // ----- The invariant --------------------------------------------------------------

  /** A connection is taken exactly by its active session. */
  ghost predicate Index(byID: map<Id, Session>, byConnection: map<Conn, Id>)
  {
    && (forall id ::
         id in byID && Active(byID[id]) ==> byID[id].conn in byConnection && byConnection[byID[id].conn] == id)
    && (forall c ::
         c in byConnection ==>
           byConnection[c] in byID && Active(byID[byConnection[c]]) && byID[byConnection[c]].conn == c)
  }

  /** One call per session, and `inFlight` is exactly the sessions with one. */
  ghost predicate Calls(closed: bool, inFlight: set<Id>, running: map<Chan, Id>)
  {
    && (forall a, b :: a in running && b in running && running[a] == running[b] ==> a == b)
    && (forall a :: a in running && !closed ==> running[a] in inFlight)
    && (forall id :: id in inFlight ==> exists a :: a in running && running[a] == id)
  }

  /** An open channel belongs to a running call and is held by that call's session;
      every other channel was closed exactly once. */
  ghost predicate Channels(byID: map<Id, Session>, running: map<Chan, Id>, closes: seq<nat>)
  {
    && (forall a :: a in running ==> a < |closes|)
    && (forall id :: id in byID && byID[id].done.Some? ==>
          var a := byID[id].done.value; a in running && running[a] == id && a < |closes| && closes[a] == 0)
    && (forall a :: 0 <= a < |closes| ==>
          closes[a] == 1 || (closes[a] == 0 && a in running && running[a] in byID && byID[running[a]].done == Some(a)))
  }

  /** An active session with a call in flight can be waited for. */
  ghost predicate Waitable(byID: map<Id, Session>, inFlight: set<Id>)
  {
    forall id :: id in byID ==>
      && (byID[id].done.Some? ==> id in inFlight && (Active(byID[id]) || byID[id].committed))
      && (id in inFlight && Active(byID[id]) ==> byID[id].done.Some?)
  }

  ghost predicate Ids(byID: map<Id, Session>, running: map<Chan, Id>, issued: set<Id>)
  {
    (forall id :: id in byID ==> id in issued) && (forall a :: a in running ==> running[a] in issued)
  }

  ghost predicate Commits(byID: map<Id, Session>, issued: set<Id>, commits: seq<Id>)
  {
    && (forall i, j :: 0 <= i < j < |commits| ==> commits[i] != commits[j])
    && (forall i :: 0 <= i < |commits| ==> commits[i] in issued)
    && (forall id :: id in byID ==> (id in commits <==> byID[id].committed))
    && (forall id :: id in byID && byID[id].committed ==> byID[id].status == Completed)
  }

  /** A session that is over holds no callbacks and schedules nothing. */
  ghost predicate Quiet(byID: map<Id, Session>)
  {
    forall id :: id in byID && !Active(byID[id]) ==> !byID[id].callbacks && !byID[id].awaits
  }

  ghost predicate Rest(s: State)
  {
    |s.byID| <= MAX_SESSIONS && (s.closed ==> s.byID == map[] && s.inFlight == {})
  }

  ghost predicate Inv(s: State)
  {
    && Index(s.byID, s.byConnection)
    && Calls(s.closed, s.inFlight, s.running)
    && Channels(s.byID, s.running, s.closes)
    && Waitable(s.byID, s.inFlight)
    && Ids(s.byID, s.running, s.issued)
    && Commits(s.byID, s.issued, s.commits)
    && Quiet(s.byID)
    && Rest(s)
  }

  /** Ending an active session frees its connection. */
  lemma EndedIndex(byID: map<Id, Session>, byConnection: map<Conn, Id>, id: Id, x: Session)
    requires Index(byID, byConnection) && id in byID && x.conn == byID[id].conn && !Active(x)
    ensures Index(byID[id := x], Unlink(byConnection, x.conn, id))
  {
  }

  lemma PrunedIndex(s: State, now: int)
    requires Index(s.byID, s.byConnection)
    ensures Index(Prune(s, now).byID, Prune(s, now).byConnection)
  {
  }

  lemma CommittedIndex(s: State, id: Id, now: int, cancelled: bool, swapped: bool)
    requires Index(s.byID, s.byConnection)
    ensures Index(Commit(s, id, now, cancelled, swapped).byID, Commit(s, id, now, cancelled, swapped).byConnection)
  {
    hide Index, Unlink;
    if id in s.byID {
      EndedIndex(s.byID, s.byConnection, id, Cleared(s.byID[id], Completed, now).(committed := true));
    }
  }

  lemma FinishedIndex(s: State, id: Id, status: Status, now: int)
    requires Index(s.byID, s.byConnection) && status != Starting && status != AwaitingUser
    ensures Index(Finish(s, id, status, now).byID, Finish(s, id, status, now).byConnection)
  {
    hide Index, Unlink;
    if id in s.byID {
      EndedIndex(s.byID, s.byConnection, id, Cleared(s.byID[id], status, now).(done := None));
    }
  }

  /** Replacing a session by one that is active for the same connection exactly when it
      was. */
  lemma ReplacedIndex(byID: map<Id, Session>, byConnection: map<Conn, Id>, id: Id, x: Session)
    requires Index(byID, byConnection) && id in byID && x.conn == byID[id].conn && (Active(x) <==> Active(byID[id]))
    ensures Index(byID[id := x], byConnection)
  {
  }

  lemma OpenedIndex(s: State, id: Id, conn: Conn, now: int)
    requires Index(s.byID, s.byConnection) && id !in s.byID
    ensures Index(Open(s, id, conn, now).byID, Open(s, id, conn, now).byConnection)
  {
  }

  lemma DiscardedIndex(s: State, id: Id)
    requires Index(s.byID, s.byConnection)
    ensures Index(Discard(s, id).byID, Discard(s, id).byConnection)
  {
  }

  lemma StepIndex(s: State, a: Action)
    requires Inv(s) && Enabled(s, a)
    ensures Index(Step(s, a).byID, Step(s, a).byConnection)
  {
    hide Index, Calls, Channels, Waitable, Commits, Quiet, Rest, CloseChannel, CloseAll, Prune, Commit, Finish, Open,
         Discard;
    match a {
      case AOpen(id, conn, now) => OpenedIndex(s, id, conn, now);
      case AAdvance(id, _, kind, _) =>
        if id in s.byID { ReplacedIndex(s.byID, s.byConnection, id, Advancing(s.byID[id], kind, |s.closes|)); }
      case APrepare(chan, expiresAt, _, _) =>
        var id := s.running[chan];
        if id in s.byID { ReplacedIndex(s.byID, s.byConnection, id,
          s.byID[id].(expiresAt := expiresAt, callbacks := true)); }
      case AApply(chan, t, now, cancelled, granted) =>
        var id := s.running[chan];
        if Applies(s, id, t, now, cancelled,
          granted) { ReplacedIndex(s.byID, s.byConnection, id, Applied(s.byID[id], t)); }
      case ARelease(chan) =>
        var id := s.running[chan];
        if id in s.byID { ReplacedIndex(s.byID, s.byConnection, id, Released(s.byID[id], s.closed)); }
      case ADiscard(chan) => DiscardedIndex(s, s.running[chan]);
      case ACancelAll => NoIndex();
      case ACommit(chan, now, cancelled, swapped) => CommittedIndex(s, s.running[chan], now, cancelled, swapped);
      case AFinish(id, status, now) => FinishedIndex(s, id, status, now);
      case APrune(now) => PrunedIndex(s, now);
    }
  }

  lemma NoIndex()
    ensures Index(map[], map[])
  {
  }

  lemma AdmittedCall(closed: bool, inFlight: set<Id>, running: map<Chan, Id>, chan: Chan, id: Id)
    requires Calls(closed, inFlight, running) && chan !in running && id !in inFlight
    requires forall a :: a in running ==> running[a] != id
    ensures Calls(closed, inFlight + {id}, running[chan := id])
  {
    var next := running[chan := id];
    forall i | i in inFlight + {id}
      ensures exists a :: a in next && next[a] == i
    {
      if i == id {
        assert chan in next;
      } else {
        var a :| a in running && running[a] == i;
        assert a in next;
      }
    }
  }

  lemma ReturnedCall(closed: bool, inFlight: set<Id>, running: map<Chan, Id>, chan: Chan)
    requires Calls(closed, inFlight, running) && chan in running
    ensures Calls(closed, inFlight - {running[chan]}, running - {chan})
  {
    forall i | i in inFlight - {running[chan]}
      ensures exists a :: a in running - {chan} && (running - {chan})[a] == i
    {
      var a :| a in running && running[a] == i;
      assert a in running - {chan};
    }
  }

  lemma StepCalls(s: State, a: Action)
    requires Inv(s) && Enabled(s, a)
    ensures Calls(Step(s, a).closed, Step(s, a).inFlight, Step(s, a).running)
  {
    match a {
      case AOpen(id, _, _) =>
        if !s.closed { AdmittedCall(s.closed, s.inFlight, s.running, |s.closes|, id); }
      case AAdvance(id, _, _, _) =>
        if !s.closed && id !in s.inFlight { AdmittedCall(s.closed, s.inFlight, s.running, |s.closes|, id); }
      case ARelease(chan) => ReturnedCall(s.closed, s.inFlight, s.running, chan);
      case _ =>
    }
    hide Index, Commits, CloseChannel, CloseAll, Waitable;
  }

  /** Admitting a call opens a fresh channel. */
  lemma AdmittedChannel(byID: map<Id, Session>, inFlight: set<Id>, running: map<Chan, Id>, closes: seq<nat>, id: Id,
                        x: Session)
    requires Channels(byID, running, closes) && Waitable(byID, inFlight) && id !in inFlight && x.done == Some(|closes|)
    requires forall a :: a in running ==> running[a] != id
    ensures Channels(byID[id := x], running[|closes| := id], closes + [0])
  {
  }

  /** Closing the channel of a session whose call is in flight. */
  lemma ClosedChannel(byID: map<Id, Session>, running: map<Chan, Id>, closes: seq<nat>, id: Id, x: Session)
    requires Channels(byID, running, closes) && id in byID && x.done == None
    ensures Channels(byID[id := x], running, CloseChannel(closes, byID[id].done))
  {
  }

  lemma ReturnedChannel(byID: map<Id, Session>, running: map<Chan, Id>, closes: seq<nat>, chan: Chan)
    requires Channels(byID, running, closes) && chan in running
    requires running[chan] in byID ==> byID[running[chan]].done == None
    requires forall a, b :: a in running && b in running && running[a] == running[b] ==> a == b
    ensures Channels(byID, running - {chan}, closes)
  {
  }

  lemma SameChannels(byID: map<Id, Session>, next: map<Id, Session>, running: map<Chan, Id>, closes: seq<nat>)
    requires Channels(byID, running, closes)
    requires forall id :: id in next ==> id in byID && next[id].done == byID[id].done
    requires forall id :: id in byID && id !in next ==> byID[id].done == None
    ensures Channels(next, running, closes)
  {
  }

  lemma StepChannels(s: State, a: Action)
    requires Inv(s) && Enabled(s, a)
    ensures Channels(Step(s, a).byID, Step(s, a).running, Step(s, a).closes)
  {
    hide Index, Commits, Channels, Calls;
    match a {
      case AOpen(id, conn, now) =>
        if !Admissible(s, conn) { return; }
        OnlyCallOf(s, id);
        AdmittedChannel(s.byID, s.inFlight, s.running, s.closes, id, Opened(conn, now, |s.closes|));
      case AAdvance(id, revision, kind, now) =>
        if CanAdvance(s, id, revision, kind, now) {
          OnlyCallOf(s, id);
          AdmittedChannel(s.byID, s.inFlight, s.running, s.closes, id, Advancing(s.byID[id], kind, |s.closes|));
        }
      case AFinish(id, status, now) =>
        if CanFinish(s, id) {
          ClosedChannel(s.byID, s.running, s.closes, id, Cleared(s.byID[id], status, now).(done := None));
        }
      case ARelease(chan) => ReleaseKeepsChannels(s, chan);
      case ADiscard(chan) => DiscardKeepsChannels(s, chan);
      case ACancelAll => CancelKeepsChannels(s);
      case _ => SameChannels(s.byID, Step(s, a).byID, s.running, s.closes);
    }
  }

  /** No call runs for a session that is not in flight, or not yet issued. */
  lemma OnlyCallOf(s: State, id: Id)
    requires Inv(s) && (id !in s.issued || (!s.closed && id !in s.inFlight))
    ensures id !in s.inFlight && forall a :: a in s.running ==> s.running[a] != id
  {
    hide Index, Commits, Channels, Waitable, Rest;
  }

  lemma ReleaseKeepsChannels(s: State, chan: Chan)
    requires Inv(s) && chan in s.running
    ensures Channels(Release(s, chan).byID, Release(s, chan).running, Release(s, chan).closes)
  {
    hide Index, Commits, Channels;
    var id := s.running[chan];
    if id in s.byID {
      var x := Released(s.byID[id], s.closed);
      ClosedChannel(s.byID, s.running, s.closes, id, x);
      ReturnedChannel(s.byID[id := x], s.running, CloseChannel(s.closes, s.byID[id].done), chan);
    } else {
      ReturnedChannel(s.byID, s.running, s.closes, chan);
    }
  }

  lemma DiscardKeepsChannels(s: State, chan: Chan)
    requires Inv(s) && chan in s.running
    ensures Channels(Discard(s, s.running[chan]).byID, s.running, s.closes)
  {
    hide Index, Commits;
  }

  lemma CancelKeepsChannels(s: State)
    requires Inv(s)
    ensures Channels(CancelAll(s).byID, CancelAll(s).running, CancelAll(s).closes)
  {
    hide Index, Commits, Calls, Waitable, Ids, Rest;
    forall c | 0 <= c < |s.closes|
      ensures CloseAll(s.closes, s.byID)[c] == 1
    {
      if s.closes[c] == 0 {
        assert Waiters(s.byID, c) == {s.running[c]};
      } else {
        assert Waiters(s.byID, c) == {};
      }
    }
  }

  lemma PrunedWaitable(s: State, now: int)
    requires Waitable(s.byID, s.inFlight)
    ensures Waitable(Prune(s, now).byID, Prune(s, now).inFlight)
  {
  }

  predicate MovesCalls(a: Action)
  {
    a.AOpen? || a.AAdvance? || a.ARelease?
  }

  lemma CallsStayWaitable(s: State, a: Action)
    requires Inv(s) && Enabled(s, a) && MovesCalls(a)
    ensures Waitable(Step(s, a).byID, Step(s, a).inFlight)
  {
    hide Index, Calls, Commits, Quiet, Rest, CloseChannel, CloseAll, Unlink, Prune, Prepare, Apply, Commit, Finish,
         Discard;
  }

  lemma SessionsStayWaitable(s: State, a: Action)
    requires Inv(s) && Enabled(s, a) && !MovesCalls(a) && !a.APrune?
    ensures Waitable(Step(s, a).byID, Step(s, a).inFlight)
  {
    hide Index, Calls, Commits, Channels, Ids, Quiet, Rest, CloseChannel, CloseAll, Unlink, Prune, Open, Advance,
         Release;
  }

  lemma StepWaitable(s: State, a: Action)
    requires Inv(s) && Enabled(s, a)
    ensures Waitable(Step(s, a).byID, Step(s, a).inFlight)
  {
    if a.APrune? {
      PrunedWaitable(s, a.now);
    } else if MovesCalls(a) {
      CallsStayWaitable(s, a);
    } else {
      SessionsStayWaitable(s, a);
    }
    hide *;
  }

  /** No new session, and no call but for a known one. */
  ghost predicate KeepsIds(s: State, t: State)
  {
    && t.issued == s.issued && (forall id :: id in t.byID ==> id in s.byID)
    && (forall x :: x in t.running ==> t.running[x] in s.byID || (x in s.running && t.running[x] == s.running[x]))
  }

  lemma StepKeepsIds(s: State, a: Action)
    requires Enabled(s, a) && !a.AOpen?
    ensures KeepsIds(s, Step(s, a))
  {
    hide CloseChannel, CloseAll, Unlink, Applied, Advancing, Cleared, Released;
  }

  lemma KeptIds(s: State, t: State)
    requires Ids(s.byID, s.running, s.issued) && KeepsIds(s, t)
    ensures Ids(t.byID, t.running, t.issued)
  {
  }

  lemma OpenedIds(s: State, id: Id, conn: Conn, now: int)
    requires Ids(s.byID, s.running, s.issued)
    ensures var t := Open(s, id, conn, now); Ids(t.byID, t.running, t.issued)
  {
  }

  lemma StepIds(s: State, a: Action)
    requires Inv(s) && Enabled(s, a)
    ensures Ids(Step(s, a).byID, Step(s, a).running, Step(s, a).issued)
  {
    if a.AOpen? {
      OpenedIds(s, a.id, a.conn, a.now);
    } else {
      StepKeepsIds(s, a);
      KeptIds(s, Step(s, a));
    }
    hide Ids, Open, KeepsIds;
  }

  /** No session gains or loses a commit, and a committed one keeps its status. */
  ghost predicate KeepsCommits(byID: map<Id, Session>, next: map<Id, Session>)
  {
    forall id :: id in next ==>
      && id in byID && next[id].committed == byID[id].committed
      && (byID[id].committed && byID[id].status == Completed ==> next[id].status == Completed)
  }

  lemma PruneKeepsCommits(s: State, now: int)
    ensures KeepsCommits(s.byID, Prune(s, now).byID) && Prune(s, now).commits == s.commits
              && Prune(s, now).issued == s.issued
  {
  }

  /** Replacing a session by one that keeps its commit. */
  lemma ReplacementKeepsCommits(byID: map<Id, Session>, id: Id, x: Session)
    requires id in byID && x.committed == byID[id].committed
    requires byID[id].committed && byID[id].status == Completed ==> x.status == Completed
    ensures KeepsCommits(byID, byID[id := x])
  {
  }

  lemma UnchangedKeepsCommits(byID: map<Id, Session>)
    ensures KeepsCommits(byID, byID) && KeepsCommits(byID, map[]) && forall id :: KeepsCommits(byID, byID - {id})
  {
  }

  lemma StepKeepsCommits(s: State, a: Action)
    requires Enabled(s, a) && !a.AOpen? && !a.ACommit?
    ensures KeepsCommits(s.byID, Step(s, a).byID) && Step(s, a).commits == s.commits && Step(s, a).issued == s.issued
  {
    hide KeepsCommits, CloseChannel, CloseAll, Unlink, Prune, Open, Commit;
    UnchangedKeepsCommits(s.byID);
    match a {
      case AAdvance(id, _, kind, _) =>
        if id in s.byID { ReplacementKeepsCommits(s.byID, id, Advancing(s.byID[id], kind, |s.closes|)); }
      case APrepare(chan, expiresAt, _, _) =>
        var id := s.running[chan];
        if id in s.byID { ReplacementKeepsCommits(s.byID, id, s.byID[id].(expiresAt := expiresAt, callbacks := true)); }
      case AApply(chan, t, now, cancelled, granted) =>
        var id := s.running[chan];
        if Applies(s, id, t, now, cancelled, granted) { ReplacementKeepsCommits(s.byID, id, Applied(s.byID[id], t)); }
      case AFinish(id, status, now) =>
        if CanFinish(s, id) { ReplacementKeepsCommits(s.byID, id, Cleared(s.byID[id], status, now).(done := None)); }
      case ARelease(chan) =>
        var id := s.running[chan];
        if id in s.byID { ReplacementKeepsCommits(s.byID, id, Released(s.byID[id], s.closed)); }
      case APrune(now) => PruneKeepsCommits(s, now);
      case _ =>
    }
  }

  lemma KeptCommits(byID: map<Id, Session>, next: map<Id, Session>, issued: set<Id>, commits: seq<Id>)
    requires Commits(byID, issued, commits) && KeepsCommits(byID, next)
    ensures Commits(next, issued, commits)
  {
  }

  lemma NewCommits(s: State, a: Action)
    requires Inv(s) && Enabled(s, a) && (a.AOpen? || a.ACommit?)
    ensures Commits(Step(s, a).byID, Step(s, a).issued, Step(s, a).commits)
  {
    hide Index, Channels, Calls, Waitable, Quiet, Rest, CloseChannel, CloseAll, Unlink, Prune, Prepare, Apply, Finish,
         Discard, Advance, Release;
  }

  lemma StepCommits(s: State, a: Action)
    requires Inv(s) && Enabled(s, a)
    ensures Commits(Step(s, a).byID, Step(s, a).issued, Step(s, a).commits)
  {
    if a.AOpen? || a.ACommit? {
      NewCommits(s, a);
    } else {
      StepKeepsCommits(s, a);
      KeptCommits(s.byID, Step(s, a).byID, s.issued, s.commits);
    }
    hide *;
  }

  lemma StepSize(s: State, a: Action)
    requires Inv(s) && Enabled(s, a)
    ensures |Step(s, a).byID| <= MAX_SESSIONS
  {
    hide Index, Channels, Calls, Waitable, Commits, Ids, CloseChannel, CloseAll, Applied, Advancing, Cleared, Released,
         Opened, Unlink;
    var next := Step(s, a).byID;
    if next.Keys <= s.byID.Keys {
      SubsetCard(next.Keys, s.byID.Keys);
    }
  }

  lemma StepQuiet(s: State, a: Action)
    requires Inv(s) && Enabled(s, a)
    ensures Quiet(Step(s, a).byID)
  {
    hide Index, Channels, Calls, Waitable, Commits, Ids, Rest, CloseChannel, CloseAll, Unlink;
  }

  lemma StepShutdown(s: State, a: Action)
    requires Inv(s) && Enabled(s, a) && Step(s, a).closed
    ensures Step(s, a).byID == map[] && Step(s, a).inFlight == {}
  {
    hide Index, Channels, Calls, Waitable, Commits, Ids, Quiet, CloseChannel, CloseAll, Unlink;
    hide Applied, Advancing, Cleared, Released, Opened;
  }

  lemma StepRest(s: State, a: Action)
    requires Inv(s) && Enabled(s, a)
    ensures Rest(Step(s, a))
  {
    StepSize(s, a);
    if Step(s, a).closed {
      StepShutdown(s, a);
    }
    hide Step, Inv;
  }

  lemma StepKeepsInv(s: State, a: Action)
    requires Inv(s) && Enabled(s, a)
    ensures Inv(Step(s, a))
  {
    StepIndex(s, a);
    StepCalls(s, a);
    StepChannels(s, a);
    StepWaitable(s, a);
    StepIds(s, a);
    StepCommits(s, a);
    StepQuiet(s, a);
    StepRest(s, a);
    hide Index, Channels, Calls, Waitable, Commits, Ids, Quiet, Rest, Step;
  }

  // ----- Main results ---------------------------------------------------------------

  lemma {:induction false} RunKeepsInv(s: State, actions: seq<Action>)
    requires Inv(s)
    ensures Inv(Run(s, actions))
    decreases |actions|
  {
    hide Inv, Step, Enabled;
    if actions != [] {
      if Enabled(s, actions[0]) {
        StepKeepsInv(s, actions[0]);
        RunKeepsInv(Step(s, actions[0]), actions[1..]);
      } else {
        RunKeepsInv(s, actions[1..]);
      }
    }
  }

  lemma EmptyIsSound()
    ensures Inv(EMPTY)
  {
  }

  /** In every reachable table: a connection names a session exactly when that
      session is active for it, no session has two calls, and the cap holds. */
  lemma EveryTableIsSound(actions: seq<Action>, id: Id, conn: Conn, a: Chan, b: Chan)
    ensures var s := Run(EMPTY, actions);
            && ((conn in s.byConnection && s.byConnection[conn] == id) <==>
                (id in s.byID && Active(s.byID[id]) && s.byID[id].conn == conn))
            && (a in s.running && b in s.running && s.running[a] == s.running[b] ==> a == b)
            && |s.byID| <= MAX_SESSIONS
  {
    EmptyIsSound();
    RunKeepsInv(EMPTY, actions);
    hide Channels, Commits, Waitable, Ids, Run;
  }

  /** Each call's channel is closed at most once, and exactly once by the time its
      call has returned: no waiter is lost. */
  lemma EveryChannelIsClosedOnce(actions: seq<Action>, chan: Chan)
    ensures var s := Run(EMPTY, actions);
            chan < |s.closes| ==> s.closes[chan] <= 1 && (chan !in s.running ==> s.closes[chan] == 1)
  {
    EmptyIsSound();
    RunKeepsInv(EMPTY, actions);
    hide Index, Calls, Commits, Waitable, Ids, Rest, Run;
  }

  /** The channel a waiter finds on an active session with a call in flight. */
  predicate MustWait(s: State, id: Id)
  {
    id in s.byID && Active(s.byID[id]) && id in s.inFlight
  }

  /** A callback or a resuming frontend that must wait always finds a channel, and
      it is the open channel of the running call: the "step is unavailable" answer
      never happens. */
  lemma WaitersFindALiveChannel(actions: seq<Action>, id: Id)
    ensures var s := Run(EMPTY, actions);
            MustWait(s, id) ==>
              && s.byID[id].done.Some?
              && var chan := s.byID[id].done.value;
                 chan < |s.closes| && s.closes[chan] == 0 && chan in s.running && s.running[chan] == id
  {
    EmptyIsSound();
    RunKeepsInv(EMPTY, actions);
    hide Index, Calls, Commits, Ids, Rest, Run;
  }

  /** A credential is persisted at most once per session. */
  lemma CommittedAtMostOnce(actions: seq<Action>, i: nat, j: nat)
    ensures var s := Run(EMPTY, actions);
            i < j < |s.commits| ==> s.commits[i] != s.commits[j]
  {
    EmptyIsSound();
    RunKeepsInv(EMPTY, actions);
    hide Index, Calls, Channels, Waitable, Ids, Rest, Run;
  }

  // ----- What a session can still become ---------------------------------------------

  /** Over: forgotten, or in a terminal status. */
  predicate Over(s: State, id: Id)
  {
    id in s.issued && (id !in s.byID || !Active(s.byID[id]))
  }

  /** Terminal statuses absorb until the session is forgotten, and nothing commits
      in them. */
  lemma OverAbsorbs(s: State, a: Action, id: Id)
    requires Enabled(s, a) && Over(s, id)
    ensures Over(Step(s, a), id)
    ensures id in Step(s, a).byID ==> id in s.byID && Step(s, a).byID[id].status == s.byID[id].status
                                      && Step(s, a).byID[id].revision == s.byID[id].revision
    ensures Step(s, a).commits == s.commits
              || (|Step(s, a).commits| == |s.commits| + 1 && Step(s, a).commits[|s.commits|] != id)
  {
    hide CloseChannel, CloseAll, Unlink;
  }

  lemma {:induction false} OverForever(s: State, actions: seq<Action>, id: Id)
    requires Over(s, id)
    ensures Over(Run(s, actions), id)
    ensures id in Run(s, actions).byID ==> id in s.byID && Run(s, actions).byID[id].status == s.byID[id].status
                                           && Run(s, actions).byID[id].revision == s.byID[id].revision
    ensures |s.commits| <= |Run(s, actions).commits|
    ensures forall i :: |s.commits| <= i < |Run(s, actions).commits| ==> Run(s, actions).commits[i] != id
    ensures Run(s, actions).commits[..|s.commits|] == s.commits
    decreases |actions|
  {
    hide Step, Enabled, Over;
    if actions != [] {
      if Enabled(s, actions[0]) {
        OverAbsorbs(s, actions[0], id);
        OverForever(Step(s, actions[0]), actions[1..], id);
        CommitsGrow(s, actions[0]);
      } else {
        OverForever(s, actions[1..], id);
      }
    }
  }

  lemma CommitsGrow(s: State, a: Action)
    requires Enabled(s, a)
    ensures |s.commits| <= |Step(s, a).commits| && Step(s, a).commits[..|s.commits|] == s.commits
  {
    hide CloseChannel, CloseAll, Unlink;
  }

  /** After shutdown nothing is opened, advanced, applied or committed. */
  lemma {:induction false} ShutdownIsFinal(s: State, actions: seq<Action>)
    requires Inv(s) && s.closed
    ensures var t := Run(s, actions);
            t.closed && t.byID == map[] && t.commits == s.commits && t.running.Keys <= s.running.Keys
    decreases |actions|
  {
    hide Inv, Step, Enabled;
    if actions != [] {
      if Enabled(s, actions[0]) {
        ClosedStep(s, actions[0]);
        StepKeepsInv(s, actions[0]);
        ShutdownIsFinal(Step(s, actions[0]), actions[1..]);
      } else {
        ShutdownIsFinal(s, actions[1..]);
      }
    }
    ClosedIsEmpty(s);
  }

  lemma ClosedIsEmpty(s: State)
    requires Inv(s) && s.closed
    ensures s.byID == map[]
  {
  }

  lemma ClosedStep(s: State, a: Action)
    requires Inv(s) && s.closed && Enabled(s, a)
    ensures Step(s, a).closed && Step(s, a).commits == s.commits && Step(s, a).running.Keys <= s.running.Keys
  {
    hide Index, Channels, Calls, Waitable, Commits, Ids, CloseChannel, CloseAll, Unlink;
  }

  predicate AppliesTo(s: State, a: Action, id: Id)
  {
    a.AApply? && a.chan in s.running && s.running[a.chan] == id && Applies(s, id, a.t, a.now, a.cancelled, a.granted)
  }

  /** The revision moves exactly when a transition is applied, by one. */
  lemma RevisionCountsTransitions(s: State, a: Action, id: Id)
    requires Enabled(s, a) && id in s.byID && id in Step(s, a).byID && id in s.issued
    ensures Step(s, a).byID[id].revision == s.byID[id].revision + if AppliesTo(s, a, id) then 1 else 0
  {
    hide CloseChannel, CloseAll, Unlink;
  }

  /** A commit happens only for an awaiting, unexpired session of an open table
      whose call was not cancelled, and it ends that session. */
  lemma CommitIsTheLinearizationPoint(s: State, a: Action)
    requires Enabled(s, a) && Step(s, a).commits != s.commits
    ensures a.ACommit? && a.swapped
    ensures var id := s.running[a.chan];
            && CanCommit(s, id, a.now, a.cancelled) && Step(s, a).commits == s.commits + [id]
            && id in Step(s, a).byID && Step(s, a).byID[id].status == Completed
  {
    hide CloseChannel, CloseAll, Unlink;
  }

  /** Cancel first, and no later commit can persist; commit first, and no later
      cancel changes the outcome. */
  lemma CancelAndCommitExclude(s: State, actions: seq<Action>, id: Id, now: int)
    requires Inv(s) && CanFinish(s, id) && id in s.issued
    ensures id !in Run(Finish(s, id, Cancelled, now), actions).commits
  {
    var t := Finish(s, id, Cancelled, now);
    assert Over(t, id);
    assert t.commits == s.commits && id !in s.commits by {
      hide Index, Channels, Calls, Waitable, Ids, Rest;
    }
    OverForever(t, actions, id);
    var u := Run(t, actions);
    forall i | 0 <= i < |u.commits|
      ensures u.commits[i] != id
    {
      if i < |t.commits| {
        assert u.commits[i] == u.commits[..|t.commits|][i];
      }
    }
  }
}
