/** The lock map as the daemon updates it in place: one method per critical section. */
module RefreshLockTable {
  import opened Sums
  import opened RefreshLock

  class LockTable {
    var entries: map<Conn, LockId>
    var locks: map<LockId, Lock>
    ghost var threads: map<Thread, User>

    ghost function State(): State
      reads this
    {
      RefreshLock.State(entries, locks, threads)
    }

    constructor ()
      ensures State() == EMPTY
    {
      entries, locks, threads := map[], map[], map[];
    }

    /** The first critical section of an acquire. */
    method Enter(ghost t: Thread, conn: Conn, made: LockId) returns (id: LockId)
      requires Inv(State()) && t !in threads && made !in locks
      modifies this
      ensures State() == RefreshLock.Enter(old(State()), t, conn, made) && id == entries[conn]
    {
      hide Counted, Held;
      if conn !in entries {
        locks := locks[made := Lock(conn, 0, None)];
        entries := entries[conn := made];
      }
      id := entries[conn];
      locks := locks[id := locks[id].(users := locks[id].users + 1)];
      threads := threads[t := User(conn, id, Waiting)];
    }

    /** What a cancelled acquire and a release both end with. */
    method Drop(ghost t: Thread, conn: Conn, id: LockId)
      requires At(State(), t, Dropping) && threads[t].conn == conn && threads[t].lock == id
      modifies this
      ensures State() == RefreshLock.Drop(old(State()), t)
    {
      locks := locks[id := locks[id].(users := locks[id].users - 1)];
      if locks[id].users == 0 {
        entries := entries - {conn};
      }
      threads := threads - {t};
    }
  }
}
