/** The store object: its fields are updated in place, one method per critical
    section, each proved to be the function of the same name in `ArtifactStore`. */
module ArtifactStoreClass {
  import opened Sums
  import opened ArtifactStore

  lemma RestrictAdd<K>(m: map<K, nat>, ks: set<K>, k: K)
    requires k !in ks
    ensures Sum(Restrict(m, ks + {k})) == Sum(Restrict(m, ks)) + if k in m then m[k] else 0
  {
    if k in m {
      SumRemove(Restrict(m, ks + {k}), k);
      assert Restrict(m, ks + {k}) - {k} == Restrict(m, ks);
    } else {
      assert Restrict(m, ks + {k}) == Restrict(m, ks);
    }
  }

  lemma RetireNothing(s: State, failing: set<Name>)
    ensures Retire(s, {}, failing) == s
  {
    assert Gone(s, {}, failing) == {};
    assert Marked(s.entries, {}) - {} == s.entries;
    assert Restrict(Sizes(s.entries), {}) == map[];
  }

  /** Retiring one more entry after the entries `done` is retiring them together,
      whatever the order. */
  lemma RetireOneMore(s: State, done: set<Name>, n: Name, failing: set<Name>)
    requires n in s.entries && n !in done
    ensures Retire(Retire(s, done, failing), {n}, failing) == Retire(s, done + {n}, failing)
  {
    var t := Retire(s, done, failing);
    var first, second := Gone(s, done, failing), Gone(t, {n}, failing);
    RetireGone(s, t, done, n, failing);
    RetireUsed(s, t, done, n, failing);
    RetireFailures(s, t, done, n, failing);
    assert s.files - first - second == s.files - (first + second);
    hide Gone, Marked, Sizes, Sum, Restrict;
  }

  lemma RetireGone(s: State, t: State, done: set<Name>, n: Name, failing: set<Name>)
    requires n in s.entries && n !in done && t == Retire(s, done, failing)
    ensures var first, second := Gone(s, done, failing), Gone(t, {n}, failing);
            && n in t.entries && t.entries[n] == s.entries[n] && second <= {n} && n !in first
            && Gone(s, done + {n}, failing) == first + second
            && Marked(t.entries, {n}) - second == Marked(s.entries, done + {n}) - (first + second)
  {
  }

  lemma RetireUsed(s: State, t: State, done: set<Name>, n: Name, failing: set<Name>)
    requires n in s.entries && n !in done && t == Retire(s, done, failing) && n in t.entries
               && t.entries[n] == s.entries[n]
    requires Gone(t, {n}, failing) <= {n} && n !in Gone(s, done, failing)
    ensures Sum(Restrict(Sizes(s.entries), Gone(s, done, failing) + Gone(t, {n}, failing))) ==
            Sum(Restrict(Sizes(s.entries), Gone(s, done, failing)))
              + Sum(Restrict(Sizes(t.entries), Gone(t, {n}, failing)))
  {
    var first, second := Gone(s, done, failing), Gone(t, {n}, failing);
    RestrictAdd(Sizes(s.entries), first, n);
    RestrictAdd(Sizes(t.entries), {}, n);
    assert Restrict(Sizes(t.entries), {}) == map[];
    assert {} + {n} == {n};
    assert second == {n} || second == {};
    assert first + {} == first;
    hide Gone;
  }

  lemma RetireFailures(s: State, t: State, done: set<Name>, n: Name, failing: set<Name>)
    requires n in s.entries && n !in done && t == Retire(s, done, failing) && n in t.entries
               && t.entries[n] == s.entries[n]
    ensures (exists k :: k in s.entries && k in done + {n} && s.entries[k].leases == 0 && k in failing) <==>
            ((exists k :: k in s.entries && k in done && s.entries[k].leases == 0 && k in failing)
             || exists k :: k in t.entries && k in {n} && t.entries[k].leases == 0 && k in failing)
  {
    assert n in s.entries && s.entries[n].leases == 0 && n in failing ==> n in t.entries && n in {n};
  }

  lemma RetireKeepsOthers(s: State, which: set<Name>, n: Name, failing: set<Name>)
    requires n in s.entries && n !in which
    ensures n in Retire(s, which, failing).entries && Retire(s, which, failing).entries[n] == s.entries[n]
  {
  }

  /** What retiring a single entry comes to. */
  function RetireOne(s: State, n: Name, fails: bool): State
    requires n in s.entries
  {
    if s.entries[n].leases > 0 then s.(entries := s.entries[n := s.entries[n].(released := true)])
    else if fails then s.(entries := s.entries[n := s.entries[n].(released := true)], removalFailed := true)
    else s.(entries := s.entries - {n}, used := s.used - s.entries[n].ref.sizeBytes, files := s.files - {n})
  }

  lemma SingleEntries(entries: map<Name, Entry>, n: Name)
    requires n in entries
    ensures Marked(entries, {n}) - {} == entries[n := entries[n].(released := true)]
    ensures Marked(entries, {n}) - {n} == entries - {n} == entries[n := entries[n].(released := true)] - {n}
  {
  }

  lemma SingleSum(m: map<Name, nat>, n: Name)
    requires n in m
    ensures Sum(Restrict(m, {n})) == m[n] && Sum(Restrict(m, {})) == 0
  {
    SumRemove(Restrict(m, {n}), n);
    assert Restrict(m, {n}) - {n} == map[];
    assert Restrict(m, {}) == map[];
  }

  lemma SingleGone(s: State, n: Name, failing: set<Name>)
    requires n in s.entries
    ensures Gone(s, {n}, failing) == if s.entries[n].leases == 0 && n !in failing then {n} else {}
    ensures (exists k :: k in s.entries && k in {n} && s.entries[k].leases == 0 && k in failing) <==>
            s.entries[n].leases == 0 && n in failing
  {
    assert n in {n};
  }

  lemma RetireSingle(s: State, n: Name, failing: set<Name>)
    requires n in s.entries
    ensures Retire(s, {n}, failing) == RetireOne(s, n, n in failing)
  {
    SingleGone(s, n, failing);
    SingleSum(Sizes(s.entries), n);
    SingleEntries(s.entries, n);
    assert Sizes(s.entries)[n] == s.entries[n].ref.sizeBytes;
    assert s.files - {} == s.files;
    hide Gone, Marked, Sizes, Sum, Restrict;
  }

  lemma GoneNothing(s: State, failing: set<Name>)
    ensures Gone(s, {}, failing) == {}
  {
  }

  lemma GoneOneMore(s: State, done: set<Name>, n: Name, failing: set<Name>)
    requires n in s.entries && n !in done
    ensures |Gone(s, done + {n}, failing)| == |Gone(s, done, failing)| + if s.entries[n].leases == 0
              && n !in failing then 1 else 0
  {
    assert Gone(s, done + {n}, failing) ==
           Gone(s, done, failing) + if s.entries[n].leases == 0 && n !in failing then {n} else {};
  }

  class Store {
    const limits: Limits
    var closed: bool
    var entries: map<Name, Entry>
    var used: int
    var reserved: int
    var activePuts: int
    var puts: map<nat, Put>
    var leases: map<nat, Lease>
    ghost var spool: map<Name, nat>
    ghost var files: set<Name>
    ghost var dirRemovals: nat
    ghost var removalFailed: bool

    ghost function State(): State
      reads this
    {
      ArtifactStore.State(limits, closed, entries, used, reserved, activePuts, puts, leases, spool, files, dirRemovals,
        removalFailed)
    }

    constructor (limits: Limits)
      ensures State() == Init(limits)
    {
      this.limits := limits;
      closed, entries, used, reserved, activePuts := false, map[], 0, 0, 0;
      puts, leases, spool, files, dirRemovals, removalFailed := map[], map[], map[], {}, 0, false;
    }

    method RemoveDirWhenIdle()
      modifies `dirRemovals
      ensures State() == TryRemoveDir(old(State()))
    {
      if closed && activePuts == 0 && entries == map[] {
        dirRemovals := dirRemovals + 1;
      }
    }

    method BeginPut(p: nat, maxBytes: int) returns (err: Option<Error>)
      requires p !in puts
      modifies this
      ensures State() == ArtifactStore.BeginPut(old(State()), p, maxBytes)
      ensures err == if old(closed) then Some(Closed) else None
    {
      var limit := if maxBytes <= 0 || maxBytes > limits.maxBodyBytes then limits.maxBodyBytes else maxBytes;
      if closed {
        return Some(Closed);
      }
      activePuts := activePuts + 1;
      puts := puts[p := Put(Fresh, 0, limit, 0, 0)];
      err := None;
    }

    method CreateSpool(p: nat, name: Name)
      requires InPhase(State(), p, Fresh) && name !in files
      modifies this
      ensures State() == ArtifactStore.CreateSpool(old(State()), p, name)
    {
      puts := puts[p := puts[p].(phase := Spooling, file := name)];
      spool := spool[name := p];
      files := files + {name};
    }

    /** The locked part of writing a chunk of `n` bytes. */
    method Reserve(p: nat, n: nat) returns (err: Option<Error>)
      requires InPhase(State(), p, Spooling)
      modifies this
      ensures State() == ArtifactStore.Reserve(old(State()), p, n)
      ensures err == ReserveError(old(State()), p, n)
    {
      if n > puts[p].maxBytes - puts[p].written {
        return Some(BodyTooLarge);
      }
      if closed {
        return Some(Closed);
      }
      if used + reserved + n > limits.maxBytes {
        return Some(StoreFull);
      }
      reserved := reserved + n;
      puts := puts[p := puts[p].(reserved := puts[p].reserved + n)];
      err := None;
    }

    method Wrote(p: nat, n: nat)
      requires InPhase(State(), p, Spooling) && n <= puts[p].reserved - puts[p].written
      modifies this
      ensures State() == ArtifactStore.Wrote(old(State()), p, n)
    {
      puts := puts[p := puts[p].(written := puts[p].written + n)];
      var unused := puts[p].reserved - puts[p].written;
      if unused > 0 {
        reserved := reserved - unused;
        puts := puts[p := puts[p].(reserved := puts[p].reserved - unused)];
      }
    }

    method GiveUp(p: nat)
      requires InPhase(State(), p, Spooling)
      modifies this
      ensures State() == ArtifactStore.GiveUp(old(State()), p)
    {
      reserved := reserved - puts[p].reserved;
      puts := puts[p := puts[p].(phase := Aborting, reserved := 0)];
    }

    method Unlink(name: Name, fails: bool)
      modifies `spool, `files, `removalFailed
      ensures State() == ArtifactStore.Unlink(old(State()), name, fails)
    {
      spool := spool - {name};
      if fails {
        removalFailed := true;
      } else {
        files := files - {name};
      }
    }

    method RemoveSpool(p: nat, fails: bool)
      requires InPhase(State(), p, Aborting)
      modifies this
      ensures State() == ArtifactStore.RemoveSpool(old(State()), p, fails)
    {
      Unlink(puts[p].file, fails);
      puts := puts[p := puts[p].(phase := Settled)];
    }

    method Seal(p: nat, ref: BodyRef, owner: Owner, fails: bool) returns (err: Option<Error>)
      requires InPhase(State(), p, Spooling)
      modifies this
      ensures State() == ArtifactStore.Seal(old(State()), p, ref, owner, fails)
      ensures err == if old(closed) then Some(Closed) else None
    {
      var w := puts[p];
      reserved := reserved - w.written;
      puts := puts[p := w.(phase := Settled, reserved := 0)];
      if closed {
        Unlink(w.file, fails);
        return Some(Closed);
      }
      used := used + w.written;
      spool := spool - {w.file};
      entries := entries[ref.id := Entry(ref, owner, 0, false)];
      err := None;
    }

    method FinishPut(p: nat)
      requires p in puts
      modifies this
      ensures State() == ArtifactStore.FinishPut(old(State()), p)
    {
      activePuts := activePuts - 1;
      puts := puts - {p};
      RemoveDirWhenIdle();
    }

    /** Marks one entry released and deletes it when nobody reads it. */
    method RetireEntry(n: Name, failing: set<Name>) returns (deleted: bool, failed: bool)
      requires n in entries
      modifies `entries, `used, `files, `removalFailed
      ensures State() == Retire(old(State()), {n}, failing)
      ensures deleted == (old(entries[n].leases) == 0 && n !in failing)
      ensures failed == (old(entries[n].leases) == 0 && n in failing)
    {
      RetireSingle(State(), n, failing);
      SingleEntries(entries, n);
      hide Retire, Marked, Gone, Sizes, Sum, Restrict;
      entries := entries[n := entries[n].(released := true)];
      deleted, failed := false, false;
      if entries[n].leases == 0 {
        if n in failing {
          failed, removalFailed := true, true;
        } else {
          used := used - entries[n].ref.sizeBytes;
          files := files - {n};
          entries := entries - {n};
          deleted := true;
        }
      }
    }

    method RetireEach(which: set<Name>, failing: set<Name>) returns (removed: nat, failed: bool)
      requires which <= entries.Keys
      modifies `entries, `used, `files, `removalFailed
      ensures State() == Retire(old(State()), which, failing)
      ensures removed == |Gone(old(State()), which, failing)|
      ensures failed <==> exists n :: n in which && old(entries[n].leases) == 0 && n in failing
    {
      hide Retire, Gone;
      ghost var s := State();
      var todo := which;
      ghost var done: set<Name> := {};
      removed, failed := 0, false;
      RetireNothing(s, failing);
      assert Gone(s, {}, failing) == {} by { GoneNothing(s, failing); }
      while todo != {}
        invariant todo + done == which && todo !! done
        invariant State() == Retire(s, done, failing)
        invariant removed == |Gone(s, done, failing)|
        invariant failed <==> exists n :: n in done && s.entries[n].leases == 0 && n in failing
        decreases |todo|
      {
        var n :| n in todo;
        RetireKeepsOthers(s, done, n, failing);
        RetireOneMore(s, done, n, failing);
        GoneOneMore(s, done, n, failing);
        var deleted, stuck := RetireEntry(n, failing);
        todo, done := todo - {n}, done + {n};
        if deleted { removed := removed + 1; }
        failed := failed || stuck;
      }
      assert done == which;
    }

    method Open(l: nat, owner: Owner, ref: BodyRef, now: int, fileOk: bool, failing: set<Name>)
      returns (err: Option<Error>)
      requires l !in leases
      modifies this
      ensures State() == ArtifactStore.Open(old(State()), l, owner, ref, now, fileOk, failing)
      ensures err == OpenError(old(State()), owner, ref, now, fileOk)
    {
      if closed {
        return Some(Closed);
      }
      if ref.id !in entries || entries[ref.id].released || ExpiredAt(entries[ref.id].ref, now) {
        if ref.id in entries && !entries[ref.id].released {
          var deleted, failed := RetireEntry(ref.id, failing);
        }
        return Some(Expired);
      }
      if entries[ref.id].owner != owner {
        return Some(WrongOwner);
      }
      if entries[ref.id].ref != ref {
        return Some(RefMismatch);
      }
      if !fileOk {
        return Some(FileUnavailable);
      }
      entries := entries[ref.id := WithLeases(entries[ref.id], entries[ref.id].leases + 1)];
      leases := leases[l := Lease(ref.id, false)];
      err := None;
    }

    method MarkLeaseClosed(l: nat) returns (first: bool)
      requires l in leases
      modifies `leases
      ensures first == !old(leases[l].closing)
      ensures State() == if first then ArtifactStore.MarkLeaseClosed(old(State()), l) else old(State())
    {
      if leases[l].closing {
        return false;
      }
      leases := leases[l := leases[l].(closing := true)];
      first := true;
    }

    method DropLease(l: nat, failing: set<Name>)
      requires Inv(State()) && l in leases && leases[l].closing
      modifies this
      ensures State() == ArtifactStore.DropLease(old(State()), l, failing)
    {
      LeaseTaken(entries, leases, l);
      hide Inv, Retire, Accounts, Tables, Shutdown, LeaseCounts, Holders, RetireOne;
      var id := leases[l].id;
      leases := leases - {l};
      if id in entries {
        entries := entries[id := WithLeases(entries[id], entries[id].leases - 1)];
        if entries[id].leases == 0 && entries[id].released {
          var deleted, failed := RetireEntry(id, failing);
        }
      }
      RemoveDirWhenIdle();
    }

    method Release(owner: Owner, ref: BodyRef, failing: set<Name>) returns (err: Option<Error>, failed: bool)
      modifies this
      ensures State() == ArtifactStore.Release(old(State()), owner, ref, failing)
      ensures err == if ref.id in old(entries) then ReleaseError(old(State()), owner, ref) else None
      ensures failed == (err.None? && ref.id in old(entries) && old(entries)[ref.id].leases == 0 && ref.id in failing)
    {
      failed := false;
      if ref.id !in entries {
        return None, false;
      }
      if entries[ref.id].owner != owner {
        return Some(WrongOwner), false;
      }
      if entries[ref.id].ref != ref {
        return Some(RefMismatch), false;
      }
      var deleted;
      deleted, failed := RetireEntry(ref.id, failing);
      err := None;
    }

    method Prune(now: int, failing: set<Name>) returns (removed: nat)
      modifies this
      ensures State() == ArtifactStore.Prune(old(State()), now, failing)
      ensures removed == |Gone(old(State()), ExpiredEntries(old(State()), now), failing)|
    {
      var failed;
      removed, failed := RetireEach((set n | n in entries && ExpiredAt(entries[n].ref, now)), failing);
    }

    method Close(failing: set<Name>) returns (failed: bool)
      modifies this
      ensures State() == ArtifactStore.Close(old(State()), failing)
      ensures failed <==> !old(closed) && exists n :: n in old(entries) && old(entries)[n].leases == 0 && n in failing
    {
      if closed {
        return false;
      }
      closed := true;
      var removed;
      removed, failed := RetireEach(entries.Keys, failing);
      RemoveDirWhenIdle();
    }
  }
}
