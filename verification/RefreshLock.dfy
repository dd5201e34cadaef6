/** The per-connection refresh lock, whose map entry is deleted when the last user leaves
    and created again by the next one. */
module RefreshLock {
  import opened Sums

  type Conn = nat
  type Thread = nat
  type LockId = nat

  datatype Phase = Waiting | Holding | Dropping

  /** A thread between entering and leaving, with the lock object it holds on to. */
  datatype User = User(conn: Conn, lock: LockId, phase: Phase)

  /** A lock object: its use count and who holds its semaphore. */
  datatype Lock = Lock(conn: Conn, users: int, holder: Option<Thread>)

  /** `entries` is the map of live locks; `locks` are all lock objects ever made. */
  datatype State = State(entries: map<Conn, LockId>, locks: map<LockId, Lock>, threads: map<Thread, User>)

  const EMPTY := State(map[], map[], map[])

  // ----- Steps -----------------------------------------------------------------------------

  /** Looks the lock up, or makes one, and counts the thread in: one critical section. */
  function Enter(s: State, t: Thread, conn: Conn, made: LockId): State
  {
    var id := if conn in s.entries then s.entries[conn] else made;
    var lock := if conn in s.entries && id in s.locks then s.locks[id] else Lock(conn, 0, None);
    State(s.entries[conn := id], s.locks[id := lock.(users := lock.users + 1)], s.threads[t := User(conn, id, Waiting)])
  }

  function Acquire(s: State, t: Thread): State
    requires t in s.threads && s.threads[t].lock in s.locks
  {
    var u := s.threads[t];
    s.(locks := s.locks[u.lock := s.locks[u.lock].(holder := Some(t))], threads := s.threads[t := u.(phase := Holding)])
  }

  function GiveUp(s: State, t: Thread): State
    requires t in s.threads
  {
    s.(threads := s.threads[t := s.threads[t].(phase := Dropping)])
  }

  function Release(s: State, t: Thread): State
    requires t in s.threads && s.threads[t].lock in s.locks
  {
    var u := s.threads[t];
    s.(locks := s.locks[u.lock := s.locks[u.lock].(holder := None)], threads := s.threads[t := u.(phase := Dropping)])
  }

  /** Counts the thread out; the last one deletes the map entry of the connection, whatever
      lock it names. */
  function Drop(s: State, t: Thread): State
    requires t in s.threads && s.threads[t].lock in s.locks
  {
    var u := s.threads[t];
    var lock := s.locks[u.lock].(users := s.locks[u.lock].users - 1);
    State(if lock.users == 0 then s.entries - {u.conn} else s.entries, s.locks[u.lock := lock], s.threads - {t})
  }

  datatype Action =
    | AEnter(t: Thread, conn: Conn, made: LockId)
    | AAcquire(t: Thread)
    | AGiveUp(t: Thread)
    | ARelease(t: Thread)
    | ADrop(t: Thread)

  predicate At(s: State, t: Thread, phase: Phase)
  {
    t in s.threads && s.threads[t].phase == phase && s.threads[t].lock in s.locks
  }

  /** A made lock is a new object; the semaphore admits one thread. */
  predicate Enabled(s: State, a: Action)
  {
    match a
    case AEnter(t, _, made) => t !in s.threads && made !in s.locks
    case AAcquire(t) => At(s, t, Waiting) && s.locks[s.threads[t].lock].holder.None?
    case AGiveUp(t) => At(s, t, Waiting)
    case ARelease(t) => At(s, t, Holding)
    case ADrop(t) => At(s, t, Dropping)
  }

  function Step(s: State, a: Action): State
    requires Enabled(s, a)
  {
    match a
    case AEnter(t, conn, made) => Enter(s, t, conn, made)
    case AAcquire(t) => Acquire(s, t)
    case AGiveUp(t) => GiveUp(s, t)
    case ARelease(t) => Release(s, t)
    case ADrop(t) => Drop(s, t)
  }

  function Run(s: State, actions: seq<Action>): State
    decreases |actions|
  {
    if actions == [] then s
    else if Enabled(s, actions[0]) then Run(Step(s, actions[0]), actions[1..])
    else Run(s, actions[1..])
  }

  // ----- The invariant -----------------------------------------------------------------------

  ghost function UsersOf(threads: map<Thread, User>, id: LockId): set<Thread>
  {
    set t | t in threads && threads[t].lock == id
  }

  /** Every thread uses the lock its connection's entry names. */
  ghost predicate Named(s: State)
  {
    && (forall t :: t in s.threads ==>
          var u := s.threads[t];
          u.conn in s.entries && s.entries[u.conn] == u.lock && u.lock in s.locks && s.locks[u.lock].conn == u.conn)
    && (forall c :: c in s.entries ==> s.entries[c] in s.locks && s.locks[s.entries[c]].conn == c)
  }

  /** Use counts are exact, and an entry exists exactly while its lock is used. */
  ghost predicate Counted(s: State)
  {
    && (forall id :: id in s.locks ==> s.locks[id].users == |UsersOf(s.threads, id)|)
    && (forall c :: c in s.entries ==> s.entries[c] in s.locks && s.locks[s.entries[c]].users > 0)
    && (forall t :: t in s.threads ==> s.threads[t].lock in s.locks)
  }

  /** The semaphore's holder is the thread that holds it. */
  ghost predicate Held(s: State)
  {
    && (forall t ::
         t in s.threads && s.threads[t].phase == Holding ==>
           s.threads[t].lock in s.locks && s.locks[s.threads[t].lock].holder == Some(t))
    && (forall id :: id in s.locks && s.locks[id].holder.Some? ==>
          var t := s.locks[id].holder.value; t in s.threads && s.threads[t] == User(s.locks[id].conn, id, Holding))
  }

  ghost predicate Inv(s: State)
  {
    Named(s) && Counted(s) && Held(s)
  }

  lemma OneMoreUser(threads: map<Thread, User>, t: Thread, u: User, id: LockId)
    requires t !in threads
    ensures |UsersOf(threads[t := u], id)| == |UsersOf(threads, id)| + if u.lock == id then 1 else 0
  {
    assert UsersOf(threads[t := u], id) == UsersOf(threads, id) + if u.lock == id then {t} else {};
    assert t !in UsersOf(threads, id);
  }

  lemma OneLessUser(threads: map<Thread, User>, t: Thread, id: LockId)
    requires t in threads
    ensures |UsersOf(threads - {t}, id)| == |UsersOf(threads, id)| - if threads[t].lock == id then 1 else 0
  {
    assert UsersOf(threads - {t}, id) == UsersOf(threads, id) - if threads[t].lock == id then {t} else {};
    if threads[t].lock == id {
      assert t in UsersOf(threads, id);
    }
  }

  lemma SameUsers(threads: map<Thread, User>, t: Thread, u: User, id: LockId)
    requires t in threads && u.lock == threads[t].lock
    ensures UsersOf(threads[t := u], id) == UsersOf(threads, id)
  {
  }

  lemma NoUsers(s: State, id: LockId)
    requires (forall t :: t in s.threads ==> s.threads[t].lock in s.locks) && id !in s.locks
    ensures |UsersOf(s.threads, id)| == 0
  {
    assert UsersOf(s.threads, id) == {};
  }

  lemma UserCounts(s: State, t: Thread)
    requires Counted(s) && t in s.threads
    ensures s.locks[s.threads[t].lock].users > 0
  {
    assert t in UsersOf(s.threads, s.threads[t].lock);
  }

  lemma EnterCounts(s: State, t: Thread, conn: Conn, made: LockId)
    requires Inv(s) && t !in s.threads && made !in s.locks
    ensures Counted(Enter(s, t, conn, made))
  {
    hide UsersOf;
    var n := Enter(s, t, conn, made);
    var u := n.threads[t];
    NoUsers(s, made);
    forall id | id in n.locks
      ensures n.locks[id].users == |UsersOf(n.threads, id)|
    {
      OneMoreUser(s.threads, t, u, id);
    }
    forall c | c in n.entries
      ensures n.entries[c] in n.locks && n.locks[n.entries[c]].users > 0
    {
    }
  }

  lemma DropCounts(s: State, t: Thread)
    requires Inv(s) && At(s, t, Dropping)
    ensures Counted(Drop(s, t))
  {
    hide UsersOf;
    var n := Drop(s, t);
    forall id | id in n.locks
      ensures n.locks[id].users == |UsersOf(n.threads, id)|
    {
      OneLessUser(s.threads, t, id);
    }
    UserCounts(s, t);
  }

  lemma PhaseCounts(s: State, a: Action)
    requires Inv(s) && Enabled(s, a) && !a.AEnter? && !a.ADrop?
    ensures Counted(Step(s, a))
  {
    hide UsersOf;
    var n := Step(s, a);
    forall id | id in n.locks
      ensures n.locks[id].users == |UsersOf(n.threads, id)|
    {
      SameUsers(s.threads, a.t, n.threads[a.t], id);
    }
  }

  lemma DropNames(s: State, t: Thread)
    requires Inv(s) && At(s, t, Dropping)
    ensures Named(Drop(s, t))
  {
    var n := Drop(s, t);
    DropCounts(s, t);
    forall x | x in n.threads
      ensures n.threads[x].conn in n.entries
    {
      assert x in UsersOf(n.threads, n.threads[x].lock);
    }
  }

  lemma StepNamed(s: State, a: Action)
    requires Inv(s) && Enabled(s, a)
    ensures Named(Step(s, a))
  {
    hide Counted, Held, UsersOf, Drop;
    if a.ADrop? {
      DropNames(s, a.t);
    }
  }

  lemma StepHeld(s: State, a: Action)
    requires Inv(s) && Enabled(s, a)
    ensures Held(Step(s, a))
  {
    hide Counted, UsersOf;
  }

  lemma StepCounted(s: State, a: Action)
    requires Inv(s) && Enabled(s, a)
    ensures Counted(Step(s, a))
  {
    hide Counted, Named, Held, Enter, Drop;
    match a {
      case AEnter(t, conn, made) => EnterCounts(s, t, conn, made);
      case ADrop(t) => DropCounts(s, t);
      case _ => PhaseCounts(s, a);
    }
  }

  lemma StepKeepsInv(s: State, a: Action)
    requires Inv(s) && Enabled(s, a)
    ensures Inv(Step(s, a))
  {
    hide Step, Named, Counted, Held;
    StepNamed(s, a);
    StepHeld(s, a);
    StepCounted(s, a);
  }

  lemma {:induction false} RunKeepsInv(s: State, actions: seq<Action>)
    requires Inv(s)
    ensures Inv(Run(s, actions))
    decreases |actions|
  {
    hide Inv, Step, Enabled;
    if actions != [] {
      if Enabled(s, actions[0]) {
        StepKeepsInv(s, actions[0]);
        RunKeepsInv(Step(s, actions[0]), actions[1..]);
      } else {
        RunKeepsInv(s, actions[1..]);
      }
    }
  }

  lemma EmptyIsSound()
    ensures Inv(EMPTY)
  {
  }

  predicate Holds(s: State, t: Thread)
  {
    t in s.threads && s.threads[t].phase == Holding
  }

  /** In every interleaving, cancelled acquires included, at most one thread holds a
      connection's lock. */
  lemma MutualExclusion(actions: seq<Action>, a: Thread, b: Thread)
    ensures var s := Run(EMPTY, actions);
            Holds(s, a) && Holds(s, b) && s.threads[a].conn == s.threads[b].conn ==> a == b
  {
    EmptyIsSound();
    RunKeepsInv(EMPTY, actions);
    hide Run, Counted;
  }

  /** Two live locks of one connection never coexist, although entries come and go. */
  lemma OneLiveLock(actions: seq<Action>, a: Thread, b: Thread)
    ensures var s := Run(EMPTY, actions);
            a in s.threads && b in s.threads && s.threads[a].conn == s.threads[b].conn ==>
              s.threads[a].lock == s.threads[b].lock
  {
    EmptyIsSound();
    RunKeepsInv(EMPTY, actions);
    hide Run, Counted, Held;
  }

  /** A connection has an entry exactly while some thread holds or waits for its lock, and
      the lock's count is the number of those threads. */
  lemma EntriesLiveExactlyWhileUsed(actions: seq<Action>, conn: Conn)
    ensures var s := Run(EMPTY, actions);
            && (conn in s.entries <==> exists t :: t in s.threads && s.threads[t].conn == conn)
            && (conn in s.entries ==>
                  && s.entries[conn] in s.locks
                  && s.locks[s.entries[conn]].users == |set t | t in s.threads && s.threads[t].conn == conn|)
  {
    EmptyIsSound();
    RunKeepsInv(EMPTY, actions);
    hide Run;
    var s := Run(EMPTY, actions);
    if conn in s.entries {
      var users := UsersOf(s.threads, s.entries[conn]);
      assert users == set t | t in s.threads && s.threads[t].conn == conn;
      assert |users| > 0;
      assert users != {};
      var t :| t in users;
    }
  }
}
