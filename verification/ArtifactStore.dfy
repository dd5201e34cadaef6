/** The spool of artifact bodies: chunked reservations, reference-counted leases,
    expiry, release and close.

    Every critical section of the store is one function of the abstract state
    (`State`) and one method of the class `Store` that implements it in place.
    `Run` folds any sequence of critical sections, of any number of concurrent
    puts, leases, releases, prunes and closes, in any order. */
module ArtifactStore {
  import opened Sums

  /** A spool file name; the store only ever compares names. */
  type Name = nat

  datatype Owner = Owner(domain: string, issuer: Option<string>, connection: string, model: string, session: string)

  datatype BodyRef = BodyRef(id: Name, mediaType: string, sizeBytes: nat, sha256: string,
                             expiresAt: Option<int>, replayable: bool)

  datatype Entry = Entry(ref: BodyRef, owner: Owner, leases: nat, released: bool)

  datatype Limits = Limits(maxBytes: nat, maxBodyBytes: nat)

  /** How far one Put has come. `Spooling` owns a file and may hold a
      reservation, `Aborting` gave the reservation back but still owns the file,
      `Settled` only has to report that it finished. */
  datatype Phase = Fresh | Spooling | Aborting | Settled

  datatype Put = Put(phase: Phase, file: Name, maxBytes: nat, written: nat, reserved: nat)

  datatype Lease = Lease(id: Name, closing: bool)

  datatype Error = Closed | BodyTooLarge | StoreFull | Expired | WrongOwner | RefMismatch | FileUnavailable

  /** `spool` says which put owns an unfinished file, `files` is the spool
      directory, `dirRemovals` counts attempts to remove it,
      `removalFailed` remembers whether any file removal ever failed. */
  datatype State = State(
    limits: Limits, closed: bool, entries: map<Name, Entry>, used: int, reserved: int, activePuts: int,
    puts: map<nat, Put>, leases: map<nat, Lease>,
    spool: map<Name, nat>, files: set<Name>, dirRemovals: nat, removalFailed: bool)

  function Init(limits: Limits): State
  {
    State(limits, false, map[], 0, 0, 0, map[], map[], map[], {}, 0, false)
  }

  // ----- Accounts -----------------------------------------------------------

  ghost function Sizes(entries: map<Name, Entry>): map<Name, nat>
  {
    map n | n in entries :: entries[n].ref.sizeBytes
  }

  ghost function Reservations(puts: map<nat, Put>): map<nat, nat>
  {
    map p | p in puts :: puts[p].reserved
  }

  ghost function Holders(leases: map<nat, Lease>, id: Name): set<nat>
  {
    set l | l in leases && leases[l].id == id
  }

  predicate OwnsFile(p: Put) { p.phase == Spooling || p.phase == Aborting }

  predicate ExpiredAt(ref: BodyRef, now: int)
  {
    ref.expiresAt.Some? && ref.expiresAt.value <= now
  }

  // ----- Critical sections as functions --------------------------------------

  function WithLeases(e: Entry, leases: nat): Entry
  {
    e.(leases := leases)
  }

  /** Removes the directory when the closed store has neither entries nor puts. */
  function TryRemoveDir(s: State): State
  {
    if s.closed && s.activePuts == 0 && s.entries == map[] then s.(dirRemovals := s.dirRemovals + 1) else s
  }

  ghost function Gone(s: State, which: set<Name>, failing: set<Name>): set<Name>
  {
    set n | n in s.entries && n in which && s.entries[n].leases == 0 && n !in failing
  }

  function Marked(entries: map<Name, Entry>, which: set<Name>): map<Name, Entry>
  {
    map n | n in entries :: if n in which then entries[n].(released := true) else entries[n]
  }

  /** Marks the entries `which` released and deletes those without a lease whose
      file removal succeeds; `failing` are the files that cannot be removed. */
  ghost function Retire(s: State, which: set<Name>, failing: set<Name>): State
  {
    var gone := Gone(s, which, failing);
    s.(entries := Marked(s.entries, which) - gone,
       used := s.used - Sum(Restrict(Sizes(s.entries), gone)),
       files := s.files - gone,
       removalFailed := s.removalFailed || exists n ::
         n in s.entries && n in which && s.entries[n].leases == 0 && n in failing)
  }

  ghost function BeginPut(s: State, p: nat, maxBytes: int): State
  {
    if s.closed then s
    else s.(activePuts := s.activePuts + 1,
            puts := s.puts[p := Put(Fresh, 0, NarrowedLimit(s.limits, maxBytes), 0, 0)])
  }

  /** A contract may narrow the store's body limit but never widen it. */
  function NarrowedLimit(limits: Limits, maxBytes: int): nat
  {
    if maxBytes <= 0 || maxBytes > limits.maxBodyBytes then limits.maxBodyBytes else maxBytes
  }

  ghost function CreateSpool(s: State, p: nat, name: Name): State
    requires p in s.puts
  {
    s.(puts := s.puts[p := s.puts[p].(phase := Spooling, file := name)], spool := s.spool[name := p],
      files := s.files + {name})
  }

  function ReserveError(s: State, p: nat, n: nat): Option<Error>
    requires p in s.puts
  {
    if n > s.puts[p].maxBytes - s.puts[p].written then Some(BodyTooLarge)
    else if s.closed then Some(Closed)
    else if s.used + s.reserved + n > s.limits.maxBytes then Some(StoreFull)
    else None
  }

  function Reserve(s: State, p: nat, n: nat): State
    requires p in s.puts
  {
    if ReserveError(s, p, n).Some? then s
    else s.(reserved := s.reserved + n, puts := s.puts[p := s.puts[p].(reserved := s.puts[p].reserved + n)])
  }

  /** The file accepted `n` bytes of the outstanding chunk; the rest of the
      chunk's reservation goes back. */
  function Wrote(s: State, p: nat, n: nat): State
    requires p in s.puts && n <= s.puts[p].reserved - s.puts[p].written
  {
    var w := s.puts[p];
    var unused := w.reserved - w.written - n;
    s.(reserved := s.reserved - unused,
      puts := s.puts[p := w.(written := w.written + n, reserved := w.reserved - unused)])
  }

  function GiveUp(s: State, p: nat): State
    requires p in s.puts
  {
    s.(reserved := s.reserved - s.puts[p].reserved, puts := s.puts[p := s.puts[p].(phase := Aborting, reserved := 0)])
  }

  function Unlink(s: State, name: Name, fails: bool): State
  {
    if fails then s.(spool := s.spool - {name}, removalFailed := true)
    else s.(spool := s.spool - {name}, files := s.files - {name})
  }

  function RemoveSpool(s: State, p: nat, fails: bool): State
    requires p in s.puts
  {
    Unlink(s, s.puts[p].file, fails).(puts := s.puts[p := s.puts[p].(phase := Settled)])
  }

  /** The end of a Put: the body becomes an entry, or is dropped when the store
      was closed meanwhile. */
  function Seal(s: State, p: nat, ref: BodyRef, owner: Owner, fails: bool): State
    requires p in s.puts
  {
    var w := s.puts[p];
    var t := s.(reserved := s.reserved - w.written, puts := s.puts[p := w.(phase := Settled, reserved := 0)]);
    if s.closed then Unlink(t, w.file, fails)
    else t.(used := s.used + w.written, spool := s.spool - {w.file},
      entries := s.entries[ref.id := Entry(ref, owner, 0, false)])
  }

  function FinishPut(s: State, p: nat): State
  {
    TryRemoveDir(s.(activePuts := s.activePuts - 1, puts := s.puts - {p}))
  }

  function OpenError(s: State, owner: Owner, ref: BodyRef, now: int, fileOk: bool): Option<Error>
  {
    if s.closed then Some(Closed)
    else if ref.id !in s.entries || s.entries[ref.id].released || ExpiredAt(s.entries[ref.id].ref, now)
         then Some(Expired)
    else if s.entries[ref.id].owner != owner then Some(WrongOwner)
    else if s.entries[ref.id].ref != ref then Some(RefMismatch)
    else if !fileOk then Some(FileUnavailable)
    else None
  }

  ghost function Open(s: State, l: nat, owner: Owner, ref: BodyRef, now: int, fileOk: bool, failing: set<Name>): State
  {
    match OpenError(s, owner, ref, now, fileOk)
    case None =>
      var e := s.entries[ref.id];
      s.(entries := s.entries[ref.id := WithLeases(e, e.leases + 1)], leases := s.leases[l := Lease(ref.id, false)])
    case Some(Expired) =>
      if ref.id in s.entries && !s.entries[ref.id].released then Retire(s, {ref.id}, failing) else s
    case Some(_) => s
  }

  function MarkLeaseClosed(s: State, l: nat): State
    requires l in s.leases
  {
    s.(leases := s.leases[l := s.leases[l].(closing := true)])
  }

  /** The state of a lease's drop before any deletion. */
  function Dropped(s: State, l: nat): State
    requires l in s.leases && s.leases[l].id in s.entries && s.entries[s.leases[l].id].leases > 0
  {
    var id := s.leases[l].id;
    s.(leases := s.leases - {l}, entries := s.entries[id := WithLeases(s.entries[id], s.entries[id].leases - 1)])
  }

  predicate LastLease(entries: map<Name, Entry>, id: Name)
  {
    id in entries && entries[id].leases == 0 && entries[id].released
  }

  ghost function DropLease(s: State, l: nat, failing: set<Name>): State
    requires l in s.leases
  {
    TryRemoveDir(AfterDrop(s, l, failing))
  }

  /** A lease lets go of its entry; the last lease of a released entry deletes it. */
  ghost function AfterDrop(s: State, l: nat, failing: set<Name>): State
    requires l in s.leases
  {
    var id := s.leases[l].id;
    if id !in s.entries || s.entries[id].leases == 0 then s.(leases := s.leases - {l})
    else
      var u := Dropped(s, l);
      if LastLease(u.entries, id) then Retire(u, {id}, failing) else u
  }

  function ReleaseError(s: State, owner: Owner, ref: BodyRef): Option<Error>
    requires ref.id in s.entries
  {
    if s.entries[ref.id].owner != owner then Some(WrongOwner)
    else if s.entries[ref.id].ref != ref then Some(RefMismatch)
    else None
  }

  ghost function Release(s: State, owner: Owner, ref: BodyRef, failing: set<Name>): State
  {
    if ref.id !in s.entries || ReleaseError(s, owner, ref).Some? then s else Retire(s, {ref.id}, failing)
  }

  ghost function ExpiredEntries(s: State, now: int): set<Name>
  {
    set n | n in s.entries && ExpiredAt(s.entries[n].ref, now)
  }

  ghost function Prune(s: State, now: int, failing: set<Name>): State
  {
    Retire(s, ExpiredEntries(s, now), failing)
  }

  ghost function Close(s: State, failing: set<Name>): State
  {
    if s.closed then s else TryRemoveDir(Retire(s.(closed := true), s.entries.Keys, failing))
  }

  // ----- Interleavings --------------------------------------------------------

  datatype Action =
    | ABeginPut(p: nat, maxBytes: int)
    | ACreateSpool(p: nat, name: Name)
    | AReserve(p: nat, n: nat)
    | AWrote(p: nat, n: nat)
    | AGiveUp(p: nat)
    | ARemoveSpool(p: nat, fails: bool)
    | ASeal(p: nat, ref: BodyRef, owner: Owner, fails: bool)
    | AFinishPut(p: nat)
    | AOpen(l: nat, owner: Owner, ref: BodyRef, now: int, fileOk: bool, failing: set<Name>)
    | AMarkLeaseClosed(l: nat)
    | ADropLease(l: nat, failing: set<Name>)
    | ARelease(owner: Owner, ref: BodyRef, failing: set<Name>)
    | APrune(now: int, failing: set<Name>)
    | AClose(failing: set<Name>)

  predicate InPhase(s: State, p: nat, phase: Phase)
  {
    p in s.puts && s.puts[p].phase == phase
  }

  /** What the callers' own program order guarantees before a critical section:
      a put creates its (fresh) file before it writes, writes inside its
      reservation, and seals what it wrote. */
  predicate Enabled(s: State, a: Action)
  {
    match a
    case ABeginPut(p, _) => p !in s.puts
    case ACreateSpool(p, name) => InPhase(s, p, Fresh) && name !in s.files
    case AReserve(p, _) => InPhase(s, p, Spooling) && s.puts[p].reserved == s.puts[p].written
    case AWrote(p, n) => InPhase(s, p, Spooling) && n <= s.puts[p].reserved - s.puts[p].written
    case AGiveUp(p) => InPhase(s, p, Spooling) && s.puts[p].reserved == s.puts[p].written
    case ARemoveSpool(p, _) => InPhase(s, p, Aborting)
    case ASeal(p, ref, _, _) =>
      InPhase(s, p, Spooling) && s.puts[p].reserved == s.puts[p].written && ref.id == s.puts[p].file
        && ref.sizeBytes == s.puts[p].written
    case AFinishPut(p) => InPhase(s, p, Fresh) || InPhase(s, p, Settled)
    case AOpen(l, _, _, _, _, _) => l !in s.leases
    case AMarkLeaseClosed(l) => l in s.leases && !s.leases[l].closing
    case ADropLease(l, _) => l in s.leases && s.leases[l].closing
    case ARelease(_, _, _) => true
    case APrune(_, _) => true
    case AClose(_) => true
  }

  ghost function Step(s: State, a: Action): State
    requires Enabled(s, a)
  {
    match a
    case ABeginPut(p, maxBytes) => BeginPut(s, p, maxBytes)
    case ACreateSpool(p, name) => CreateSpool(s, p, name)
    case AReserve(p, n) => Reserve(s, p, n)
    case AWrote(p, n) => Wrote(s, p, n)
    case AGiveUp(p) => GiveUp(s, p)
    case ARemoveSpool(p, fails) => RemoveSpool(s, p, fails)
    case ASeal(p, ref, owner, fails) => Seal(s, p, ref, owner, fails)
    case AFinishPut(p) => FinishPut(s, p)
    case AOpen(l, owner, ref, now, fileOk, failing) => Open(s, l, owner, ref, now, fileOk, failing)
    case AMarkLeaseClosed(l) => MarkLeaseClosed(s, l)
    case ADropLease(l, failing) => DropLease(s, l, failing)
    case ARelease(owner, ref, failing) => Release(s, owner, ref, failing)
    case APrune(now, failing) => Prune(s, now, failing)
    case AClose(failing) => Close(s, failing)
  }

  ghost function Run(s: State, actions: seq<Action>): State
    decreases |actions|
  {
    if actions == [] then s
    else if Enabled(s, actions[0]) then Run(Step(s, actions[0]), actions[1..])
    else Run(s, actions[1..])
  }

  // ----- The invariant --------------------------------------------------------

  predicate PutOk(limits: Limits, w: Put)
  {
    && w.written <= w.maxBytes <= limits.maxBodyBytes
    && (w.phase == Fresh ==> w.written == 0)
    && (w.phase == Spooling ==> w.written <= w.reserved <= w.maxBytes)
    && (w.phase != Spooling ==> w.reserved == 0)
  }

  predicate PutsOk(limits: Limits, puts: map<nat, Put>)
  {
    forall p :: p in puts ==> PutOk(limits, puts[p])
  }

  ghost predicate LeaseCounts(entries: map<Name, Entry>, leases: map<nat, Lease>)
  {
    && (forall n :: n in entries ==> entries[n].leases == |Holders(leases, n)|)
    && (forall l :: l in leases ==> leases[l].id in entries)
  }

  predicate EntriesOk(limits: Limits, entries: map<Name, Entry>)
  {
    forall n :: n in entries ==> entries[n].ref.id == n && entries[n].ref.sizeBytes <= limits.maxBodyBytes
  }

  predicate SpoolOwned(puts: map<nat, Put>, spool: map<Name, nat>)
  {
    && (forall p :: p in puts && OwnsFile(puts[p]) ==> puts[p].file in spool && spool[puts[p].file] == p)
    && (forall f :: f in spool ==> spool[f] in puts && OwnsFile(puts[spool[f]]) && puts[spool[f]].file == f)
  }

  predicate Directory(entries: set<Name>, spool: set<Name>, files: set<Name>, removalFailed: bool)
  {
    && spool !! entries
    && entries + spool <= files
    && (!removalFailed ==> files <= entries + spool)
  }

  /** What is owed once the store closes: `idle` means no put and no entry. */
  predicate Shutdown(closed: bool, entries: map<Name, Entry>, idle: bool, dirRemovals: nat, removalFailed: bool)
  {
    && (!removalFailed ==> forall n :: n in entries && entries[n].released ==> entries[n].leases > 0)
    && (closed ==> forall n :: n in entries ==> entries[n].released)
    && dirRemovals <= 1
    && (dirRemovals == 1 ==> closed && idle)
    && (closed && idle && !removalFailed ==> dirRemovals == 1)
  }

  predicate Idle(s: State)
  {
    s.activePuts == 0 && s.entries == map[]
  }

  ghost predicate Accounts(s: State)
  {
    && s.used == Sum(Sizes(s.entries))
    && s.reserved == Sum(Reservations(s.puts))
    && s.used + s.reserved <= s.limits.maxBytes
    && s.activePuts == |s.puts|
  }

  ghost predicate Tables(s: State)
  {
    && PutsOk(s.limits, s.puts) && EntriesOk(s.limits, s.entries)
    && LeaseCounts(s.entries, s.leases)
    && SpoolOwned(s.puts, s.spool) && Directory(s.entries.Keys, s.spool.Keys, s.files, s.removalFailed)
  }

  ghost predicate Inv(s: State)
  {
    Accounts(s) && Tables(s) && Shutdown(s.closed, s.entries, Idle(s), s.dirRemovals, s.removalFailed)
  }

  // ----- Preservation ---------------------------------------------------------

  lemma RetiredSizes(entries: map<Name, Entry>, which: set<Name>, gone: set<Name>)
    ensures Sum(Sizes(Marked(entries, which) - gone)) == Sum(Sizes(entries)) - Sum(Restrict(Sizes(entries), gone))
  {
    SumSplit(Sizes(entries), gone);
    assert Sizes(Marked(entries, which) - gone) == Sizes(entries) - gone;
  }

  lemma RetiredTables(entries: map<Name, Entry>, leases: map<nat, Lease>, which: set<Name>, gone: set<Name>)
    requires LeaseCounts(entries, leases)
    requires forall n :: n in gone ==> n in entries && entries[n].leases == 0
    ensures LeaseCounts(Marked(entries, which) - gone, leases)
  {
    forall l | l in leases
      ensures leases[l].id !in gone
    {
      assert l in Holders(leases, leases[l].id);
    }
  }

  /** Outside `Close` a retirement never empties a closed store unless a removal
      had failed, so it never owes a directory removal. */
  lemma RetireKeepsShutdown(s: State, which: set<Name>, failing: set<Name>)
    requires Shutdown(s.closed, s.entries, Idle(s), s.dirRemovals, s.removalFailed)
    ensures var t := Retire(s, which, failing);
            Shutdown(t.closed, t.entries, Idle(t), t.dirRemovals, t.removalFailed)
  {
    var t := Retire(s, which, failing);
    if s.closed && !t.removalFailed {
      assert Gone(s, which, failing) == {};
      assert t.entries.Keys == s.entries.Keys;
    }
    assert s.entries == map[] ==> t.entries == map[];
  }

  lemma RetireKeepsAccounts(s: State, which: set<Name>, failing: set<Name>)
    requires Accounts(s)
    ensures Accounts(Retire(s, which, failing))
  {
    hide Sum, Sizes, Reservations, Marked;
    RetiredSizes(s.entries, which, Gone(s, which, failing));
  }

  lemma RetireKeepsTables(s: State, which: set<Name>, failing: set<Name>)
    requires Tables(s)
    ensures Tables(Retire(s, which, failing))
  {
    hide Sum, Sizes, LeaseCounts, SpoolOwned, PutsOk;
    var gone := Gone(s, which, failing);
    RetiredTables(s.entries, s.leases, which, gone);
    assert (Marked(s.entries, which) - gone).Keys == s.entries.Keys - gone;
    assert EntriesOk(s.limits, Marked(s.entries, which) - gone);
    hide EntriesOk, Marked;
  }

  lemma RetireKeepsInv(s: State, which: set<Name>, failing: set<Name>)
    requires Inv(s)
    ensures Inv(Retire(s, which, failing))
  {
    RetireKeepsAccounts(s, which, failing);
    RetireKeepsTables(s, which, failing);
    RetireKeepsShutdown(s, which, failing);
    hide Retire, Accounts, Tables, Shutdown;
  }

  lemma HolderAdded(leases: map<nat, Lease>, l: nat, id: Name, n: Name)
    requires l !in leases
    ensures |Holders(leases[l := Lease(id, false)], n)| == |Holders(leases, n)| + if n == id then 1 else 0
  {
    assert Holders(leases[l := Lease(id, false)], n) == if n == id then Holders(leases, n) + {l}
                                                        else Holders(leases, n);
  }

  lemma HolderRemoved(leases: map<nat, Lease>, l: nat, n: Name)
    requires l in leases
    ensures |Holders(leases - {l}, n)| == |Holders(leases, n)| - if n == leases[l].id then 1 else 0
  {
    assert Holders(leases - {l}, n) == if n == leases[l].id then Holders(leases, n) - {l} else Holders(leases, n);
  }

  lemma HolderMarked(leases: map<nat, Lease>, l: nat, n: Name)
    requires l in leases
    ensures Holders(leases[l := leases[l].(closing := true)], n) == Holders(leases, n)
  {
  }

  lemma ReservationChanged(puts: map<nat, Put>, p: nat, w: Put)
    ensures Sum(Reservations(puts[p := w])) ==
            Sum(Reservations(puts)) - (if p in puts then puts[p].reserved else 0) + w.reserved
  {
    assert Reservations(puts[p := w]) == Reservations(puts)[p := w.reserved];
    SumUpdate(Reservations(puts), p, w.reserved);
  }

  lemma ReservationRemoved(puts: map<nat, Put>, p: nat)
    requires p in puts
    ensures Sum(Reservations(puts - {p})) == Sum(Reservations(puts)) - puts[p].reserved
  {
    assert Reservations(puts - {p}) == Reservations(puts) - {p};
    SumRemove(Reservations(puts), p);
  }

  lemma PutCounted(puts: map<nat, Put>, p: nat, w: Put)
    ensures |puts[p := w]| == |puts| + (if p in puts then 0 else 1)
    ensures p in puts ==> |puts - {p}| == |puts| - 1 && |puts| > 0
  {
    if p in puts {
      assert (puts - {p}).Keys == puts.Keys - {p};
    }
  }

  lemma SizeChanged(entries: map<Name, Entry>, id: Name, e: Entry)
    ensures Sum(Sizes(entries[id := e])) ==
            Sum(Sizes(entries)) - (if id in entries then entries[id].ref.sizeBytes else 0) + e.ref.sizeBytes
  {
    assert Sizes(entries[id := e]) == Sizes(entries)[id := e.ref.sizeBytes];
    SumUpdate(Sizes(entries), id, e.ref.sizeBytes);
  }

  /** Only the record of put `p` changed; `w` is its new value. */
  predicate PutMoved(s: State, t: State, p: nat, w: Put)
  {
    && t == s.(puts := s.puts[p := w], reserved := t.reserved, activePuts := t.activePuts,
               spool := t.spool, files := t.files, removalFailed := t.removalFailed)
    && PutOk(s.limits, w)
    && t.reserved == s.reserved - (if p in s.puts then s.puts[p].reserved else 0) + w.reserved
    && t.activePuts == s.activePuts + (if p in s.puts then 0 else 1)
    && t.used + t.reserved <= t.limits.maxBytes
    && (s.removalFailed ==> t.removalFailed)
  }

  lemma PutMovedKeepsInv(s: State, t: State, p: nat, w: Put)
    requires Inv(s) && PutMoved(s, t, p, w)
    requires SpoolOwned(t.puts, t.spool) && Directory(t.entries.Keys, t.spool.Keys, t.files, t.removalFailed)
    requires p in s.puts || !s.closed
    ensures Inv(t)
  {
    hide Accounts, Tables, Shutdown;
    PutMovedKeepsAccounts(s, t, p, w);
    PutMovedKeepsTables(s, t, p, w);
    PutMovedKeepsShutdown(s, t, p, w);
  }

  lemma PutMovedKeepsAccounts(s: State, t: State, p: nat, w: Put)
    requires Accounts(s) && PutMoved(s, t, p, w)
    ensures Accounts(t)
  {
    hide Sum, Sizes, Reservations, PutOk;
    ReservationChanged(s.puts, p, w);
    PutCounted(s.puts, p, w);
  }

  lemma PutMovedKeepsTables(s: State, t: State, p: nat, w: Put)
    requires Tables(s) && PutMoved(s, t, p, w)
    requires SpoolOwned(t.puts, t.spool) && Directory(t.entries.Keys, t.spool.Keys, t.files, t.removalFailed)
    ensures Tables(t)
  {
    hide PutOk, EntriesOk, LeaseCounts, SpoolOwned, Directory;
  }

  lemma PutMovedKeepsShutdown(s: State, t: State, p: nat, w: Put)
    requires Accounts(s) && PutMoved(s, t, p, w) && (p in s.puts || !s.closed)
    requires Shutdown(s.closed, s.entries, Idle(s), s.dirRemovals, s.removalFailed)
    ensures Shutdown(t.closed, t.entries, Idle(t), t.dirRemovals, t.removalFailed)
  {
    hide Sum, Sizes, Reservations, PutOk;
    PutCounted(s.puts, p, w);
    assert !t.closed || Idle(t) == Idle(s);
  }

  /** A put that owns its file before and after, or neither, moves no file. */
  lemma FilesUntouched(puts: map<nat, Put>, spool: map<Name, nat>, p: nat, w: Put)
    requires SpoolOwned(puts, spool)
    requires OwnsFile(w) ==> p in puts && OwnsFile(puts[p]) && puts[p].file == w.file
    requires p in puts && OwnsFile(puts[p]) ==> OwnsFile(w)
    ensures SpoolOwned(puts[p := w], spool)
  {
  }

  lemma FileLeft(puts: map<nat, Put>, spool: map<Name, nat>, p: nat, w: Put)
    requires SpoolOwned(puts, spool) && p in puts && OwnsFile(puts[p]) && !OwnsFile(w)
    ensures SpoolOwned(puts[p := w], spool - {puts[p].file})
  {
  }

  lemma PutStepKeepsInv(s: State, a: Action)
    requires Inv(s) && Enabled(s, a)
    requires a.ABeginPut? || a.AReserve? || a.AWrote? || a.AGiveUp?
    ensures Inv(Step(s, a))
  {
    hide Sum, Sizes, LeaseCounts, SpoolOwned, Directory, Shutdown;
    var t := Step(s, a);
    if a.p in s.puts {
      SumBounds(Reservations(s.puts), a.p);
    }
    if t != s {
      FilesUntouched(s.puts, s.spool, a.p, t.puts[a.p]);
      PutMovedKeepsInv(s, t, a.p, t.puts[a.p]);
    }
  }

  lemma CreateKeepsInv(s: State, p: nat, name: Name)
    requires Inv(s) && InPhase(s, p, Fresh) && name !in s.files
    ensures Inv(CreateSpool(s, p, name))
  {
    var t := CreateSpool(s, p, name);
    CreatedFiles(s, p, name);
    assert PutMoved(s, t, p, t.puts[p]) by {
      hide Sum, Sizes, Reservations, LeaseCounts, Shutdown, SpoolOwned, Directory, EntriesOk;
    }
    hide PutMoved, Inv, CreateSpool, SpoolOwned, Directory;
    PutMovedKeepsInv(s, t, p, t.puts[p]);
  }

  lemma CreatedFiles(s: State, p: nat, name: Name)
    requires Tables(s) && InPhase(s, p, Fresh) && name !in s.files
    ensures var t := CreateSpool(s, p, name);
            SpoolOwned(t.puts, t.spool) && Directory(t.entries.Keys, t.spool.Keys, t.files, t.removalFailed)
  {
    hide LeaseCounts, EntriesOk, PutsOk;
  }

  lemma UnlinkKeepsInv(s: State, p: nat, fails: bool)
    requires Inv(s) && InPhase(s, p, Aborting)
    ensures Inv(RemoveSpool(s, p, fails))
  {
    hide Sum, Sizes, Reservations, LeaseCounts, Shutdown;
    var t := RemoveSpool(s, p, fails);
    FileLeft(s.puts, s.spool, p, t.puts[p]);
    assert s.puts[p].file in s.spool;
    PutMovedKeepsInv(s, t, p, t.puts[p]);
  }

  lemma SealIntoClosedStore(s: State, p: nat, ref: BodyRef, owner: Owner, fails: bool)
    requires Inv(s) && Enabled(s, ASeal(p, ref, owner, fails)) && s.closed
    ensures Inv(Seal(s, p, ref, owner, fails))
  {
    var t := Seal(s, p, ref, owner, fails);
    SealedMoves(s, p, ref, owner, fails);
    SealedFiles(s, p, ref, owner, fails);
    hide PutMoved, Inv, Seal, SpoolOwned, Directory;
    PutMovedKeepsInv(s, t, p, t.puts[p]);
  }

  lemma SealedMoves(s: State, p: nat, ref: BodyRef, owner: Owner, fails: bool)
    requires Inv(s) && Enabled(s, ASeal(p, ref, owner, fails)) && s.closed
    ensures PutMoved(s, Seal(s, p, ref, owner, fails), p, Seal(s, p, ref, owner, fails).puts[p])
  {
    hide Sum, Sizes, LeaseCounts, Shutdown, SpoolOwned, Directory, EntriesOk;
    SumBounds(Reservations(s.puts), p);
  }

  lemma SealedFiles(s: State, p: nat, ref: BodyRef, owner: Owner, fails: bool)
    requires Tables(s) && Enabled(s, ASeal(p, ref, owner, fails)) && s.closed
    ensures var t := Seal(s, p, ref, owner, fails);
            SpoolOwned(t.puts, t.spool) && Directory(t.entries.Keys, t.spool.Keys, t.files, t.removalFailed)
  {
    hide LeaseCounts, EntriesOk, PutsOk;
    FileLeft(s.puts, s.spool, p, Seal(s, p, ref, owner, fails).puts[p]);
    assert s.puts[p].file in s.spool;
  }

  lemma EntryAdded(entries: map<Name, Entry>, leases: map<nat, Lease>, id: Name, e: Entry)
    requires LeaseCounts(entries, leases) && id !in entries && e.leases == 0
    ensures LeaseCounts(entries[id := e], leases)
  {
    assert Holders(leases, id) == {};
  }

  lemma SealedAccounts(s: State, p: nat, ref: BodyRef, owner: Owner, fails: bool)
    requires Inv(s) && Enabled(s, ASeal(p, ref, owner, fails)) && !s.closed && ref.id !in s.entries
    ensures Accounts(Seal(s, p, ref, owner, fails))
  {
    hide Sum, Sizes, Reservations, Tables, Shutdown;
    var t := Seal(s, p, ref, owner, fails);
    ReservationChanged(s.puts, p, t.puts[p]);
    SizeChanged(s.entries, ref.id, t.entries[ref.id]);
    PutCounted(s.puts, p, t.puts[p]);
  }

  lemma SealIntoOpenStore(s: State, p: nat, ref: BodyRef, owner: Owner, fails: bool)
    requires Inv(s) && Enabled(s, ASeal(p, ref, owner, fails)) && !s.closed
    ensures Inv(Seal(s, p, ref, owner, fails))
  {
    hide Accounts, LeaseCounts;
    assert ref.id in s.spool;
    SealedAccounts(s, p, ref, owner, fails);
    SealedTables(s, p, ref, owner, fails);
    hide Tables;
  }

  lemma SealedTables(s: State, p: nat, ref: BodyRef, owner: Owner, fails: bool)
    requires Tables(s) && Enabled(s, ASeal(p, ref, owner, fails)) && !s.closed
    ensures Tables(Seal(s, p, ref, owner, fails))
  {
    hide LeaseCounts;
    var t := Seal(s, p, ref, owner, fails);
    assert ref.id in s.spool;
    FileLeft(s.puts, s.spool, p, t.puts[p]);
    hide SpoolOwned;
    EntryAdded(s.entries, s.leases, ref.id, t.entries[ref.id]);
  }

  lemma FinishKeepsInv(s: State, p: nat)
    requires Inv(s) && (InPhase(s, p, Fresh) || InPhase(s, p, Settled))
    ensures Inv(FinishPut(s, p))
  {
    hide Accounts, Tables, Shutdown;
    FinishKeepsAccounts(s, p);
    FinishKeepsTables(s, p);
    FinishKeepsShutdown(s, p);
  }

  lemma FinishKeepsAccounts(s: State, p: nat)
    requires Inv(s) && (InPhase(s, p, Fresh) || InPhase(s, p, Settled))
    ensures Accounts(FinishPut(s, p))
  {
    hide Sum, Sizes, Reservations, Shutdown, LeaseCounts, Directory, SpoolOwned, EntriesOk;
    ReservationRemoved(s.puts, p);
    PutCounted(s.puts, p, s.puts[p]);
  }

  lemma FinishKeepsTables(s: State, p: nat)
    requires Tables(s) && (InPhase(s, p, Fresh) || InPhase(s, p, Settled))
    ensures Tables(FinishPut(s, p))
  {
    hide LeaseCounts, Directory, EntriesOk;
    assert SpoolOwned(s.puts - {p}, s.spool);
  }

  lemma FinishKeepsShutdown(s: State, p: nat)
    requires Accounts(s) && Shutdown(s.closed, s.entries, Idle(s), s.dirRemovals, s.removalFailed) && p in s.puts
    ensures var t := FinishPut(s, p);
            Shutdown(t.closed, t.entries, Idle(t), t.dirRemovals, t.removalFailed)
  {
    hide Sum, Sizes, Reservations;
    PutCounted(s.puts, p, s.puts[p]);
  }

  lemma CloseKeepsInv(s: State, failing: set<Name>)
    requires Inv(s)
    ensures Inv(Close(s, failing))
  {
    hide Accounts, Tables, Shutdown, Retire;
    if !s.closed {
      var c := s.(closed := true);
      ClosedFlagKeeps(s);
      RetireKeepsAccounts(c, s.entries.Keys, failing);
      RetireKeepsTables(c, s.entries.Keys, failing);
      DirRemovalKeeps(Retire(c, s.entries.Keys, failing));
      ClosedShutdown(s, failing);
    }
    hide TryRemoveDir;
  }

  /** The closed flag plays no part in the accounts and tables. */
  lemma ClosedFlagKeeps(s: State)
    requires Accounts(s) && Tables(s)
    ensures Accounts(s.(closed := true)) && Tables(s.(closed := true))
  {
    hide Sum, Sizes, Reservations, SpoolOwned, Directory, PutsOk, EntriesOk, LeaseCounts;
  }

  lemma ClosedShutdown(s: State, failing: set<Name>)
    requires Shutdown(s.closed, s.entries, Idle(s), s.dirRemovals, s.removalFailed) && !s.closed
    ensures var t := Close(s, failing);
            Shutdown(t.closed, t.entries, Idle(t), t.dirRemovals, t.removalFailed)
  {
  }

  lemma OpenKeepsInv(s: State, l: nat, owner: Owner, ref: BodyRef, now: int, fileOk: bool, failing: set<Name>)
    requires Inv(s) && l !in s.leases
    ensures Inv(Open(s, l, owner, ref, now, fileOk, failing))
  {
    hide Inv, Retire;
    if OpenError(s, owner, ref, now, fileOk).None? {
      LeaseOpened(s, l, ref.id);
    } else {
      RetireKeepsInv(s, {ref.id}, failing);
    }
  }

  /** Lease counters play no part in the byte accounts or the directory. */
  lemma LeaseMovedKeeps(s: State, t: State, id: Name, leases: nat)
    requires Accounts(s) && Tables(s) && id in s.entries && LeaseCounts(t.entries, t.leases)
    requires t == s.(leases := t.leases, entries := s.entries[id := WithLeases(s.entries[id], leases)])
    ensures Accounts(t) && Tables(t)
  {
    hide Sum, Sizes, Reservations, LeaseCounts, SpoolOwned, Directory, PutsOk;
    SizeChanged(s.entries, id, t.entries[id]);
    assert t.entries.Keys == s.entries.Keys;
  }

  lemma LeaseAdded(entries: map<Name, Entry>, leases: map<nat, Lease>, l: nat, id: Name)
    requires LeaseCounts(entries, leases) && l !in leases && id in entries
    ensures LeaseCounts(entries[id := WithLeases(entries[id], entries[id].leases + 1)], leases[l := Lease(id, false)])
  {
    forall n | n in entries
      ensures |Holders(leases[l := Lease(id, false)], n)| == entries[n].leases + if n == id then 1 else 0
    {
      HolderAdded(leases, l, id, n);
    }
    hide Holders;
  }

  lemma LeaseOpened(s: State, l: nat, id: Name)
    requires Inv(s) && l !in s.leases && id in s.entries && !s.closed
    ensures Inv(s.(entries := s.entries[id := WithLeases(s.entries[id], s.entries[id].leases + 1)],
                   leases := s.leases[l := Lease(id, false)]))
  {
    hide Sum, Sizes, Reservations, SpoolOwned, Directory, PutsOk, LeaseCounts;
    var t := s.(entries := s.entries[id := WithLeases(s.entries[id], s.entries[id].leases + 1)],
                leases := s.leases[l := Lease(id, false)]);
    LeaseAdded(s.entries, s.leases, l, id);
    LeaseMovedKeeps(s, t, id, s.entries[id].leases + 1);
  }

  lemma LeaseClosing(s: State, l: nat)
    requires Inv(s) && l in s.leases
    ensures Inv(MarkLeaseClosed(s, l))
  {
    hide Sum, Sizes, Reservations, SpoolOwned, Directory, PutsOk, EntriesOk, Shutdown;
    forall n | n in s.entries
      ensures Holders(MarkLeaseClosed(s, l).leases, n) == Holders(s.leases, n)
    {
      HolderMarked(s.leases, l, n);
    }
  }

  lemma LeaseTaken(entries: map<Name, Entry>, leases: map<nat, Lease>, l: nat)
    requires LeaseCounts(entries, leases) && l in leases
    ensures leases[l].id in entries && entries[leases[l].id].leases > 0
    ensures var id := leases[l].id;
            LeaseCounts(entries[id := WithLeases(entries[id], entries[id].leases - 1)], leases - {l})
  {
    var id := leases[l].id;
    assert l in Holders(leases, id);
    forall n | n in entries
      ensures |Holders(leases - {l}, n)| == entries[n].leases - if n == id then 1 else 0
    {
      HolderRemoved(leases, l, n);
    }
    hide Holders;
  }

  lemma DroppedKeeps(s: State, l: nat)
    requires Accounts(s) && Tables(s) && l in s.leases
    ensures s.leases[l].id in s.entries && s.entries[s.leases[l].id].leases > 0
    ensures Accounts(Dropped(s, l)) && Tables(Dropped(s, l))
  {
    hide Accounts, LeaseCounts, SpoolOwned, Directory, PutsOk, EntriesOk;
    LeaseTaken(s.entries, s.leases, l);
    hide Tables;
    LeaseMovedKeeps(s, Dropped(s, l), s.leases[l].id, s.entries[s.leases[l].id].leases - 1);
  }

  lemma DropKeepsAccounts(s: State, l: nat, failing: set<Name>)
    requires Accounts(s) && Tables(s) && l in s.leases
    ensures Accounts(AfterDrop(s, l, failing)) && Tables(AfterDrop(s, l, failing))
  {
    hide Retire, Accounts, Tables, Dropped;
    DroppedKeeps(s, l);
    RetireKeepsAccounts(Dropped(s, l), {s.leases[l].id}, failing);
    RetireKeepsTables(Dropped(s, l), {s.leases[l].id}, failing);
  }

  lemma DropKeepsInv(s: State, l: nat, failing: set<Name>)
    requires Inv(s) && l in s.leases
    ensures Inv(DropLease(s, l, failing))
  {
    hide Accounts, Shutdown, AfterDrop, LeaseCounts, SpoolOwned, Directory, PutsOk, EntriesOk;
    DropKeepsAccounts(s, l, failing);
    LeaseTaken(s.entries, s.leases, l);
    hide Tables;
    DirRemovalKeeps(AfterDrop(s, l, failing));
    DropKeepsShutdown(s, l, failing);
    hide TryRemoveDir;
  }

  lemma DirRemovalKeeps(s: State)
    requires Accounts(s) && Tables(s)
    ensures Accounts(TryRemoveDir(s)) && Tables(TryRemoveDir(s))
  {
    hide Sum, Sizes, Reservations, SpoolOwned, Directory, PutsOk, EntriesOk, LeaseCounts;
  }

  lemma DropKeepsShutdown(s: State, l: nat, failing: set<Name>)
    requires Shutdown(s.closed, s.entries, Idle(s), s.dirRemovals, s.removalFailed)
    requires l in s.leases && s.leases[l].id in s.entries && s.entries[s.leases[l].id].leases > 0
    ensures var t := DropLease(s, l, failing);
            Shutdown(t.closed, t.entries, Idle(t), t.dirRemovals, t.removalFailed)
  {
    var id := s.leases[l].id;
    var u := Dropped(s, l);
    assert u.dirRemovals == 0 && id in u.entries;
    if LastLease(u.entries, id) {
      RetiredShutdown(u, id, failing);
    }
    hide Retire;
  }

  lemma RetiredShutdown(u: State, id: Name, failing: set<Name>)
    requires LastLease(u.entries, id) && u.dirRemovals == 0
    requires !u.removalFailed ==>
               forall n :: n in u.entries && u.entries[n].released && n != id ==> u.entries[n].leases > 0
    requires u.closed ==> forall n :: n in u.entries ==> u.entries[n].released
    ensures var t := TryRemoveDir(Retire(u, {id}, failing));
            Shutdown(t.closed, t.entries, Idle(t), t.dirRemovals, t.removalFailed)
  {
  }

  lemma StepKeepsInv(s: State, a: Action)
    requires Inv(s) && Enabled(s, a)
    ensures Inv(Step(s, a))
  {
    match a {
      case ACreateSpool(p, name) => CreateKeepsInv(s, p, name);
      case ARemoveSpool(p, fails) => UnlinkKeepsInv(s, p, fails);
      case ASeal(p, ref, owner, fails) =>
        if s.closed { SealIntoClosedStore(s, p, ref, owner, fails); }
          else { SealIntoOpenStore(s, p, ref, owner, fails); }
      case AFinishPut(p) => FinishKeepsInv(s, p);
      case AOpen(l, owner, ref, now, fileOk, failing) => OpenKeepsInv(s, l, owner, ref, now, fileOk, failing);
      case AMarkLeaseClosed(l) => LeaseClosing(s, l);
      case ADropLease(l, failing) => DropKeepsInv(s, l, failing);
      case ARelease(owner, ref, failing) => RetireKeepsInv(s, {ref.id}, failing);
      case APrune(now, failing) => RetireKeepsInv(s, ExpiredEntries(s, now), failing);
      case AClose(failing) => CloseKeepsInv(s, failing);
      case _ => PutStepKeepsInv(s, a);
    }
    hide Inv, Retire, CreateSpool, RemoveSpool, Seal, FinishPut, Open, MarkLeaseClosed, DropLease, Close;
  }

  // ----- Main results ---------------------------------------------------------

  /** In every interleaving the accounts balance, the capacity bound holds and
      each entry's lease count equals its open leases. */
  lemma {:induction false} RunKeepsInv(s: State, actions: seq<Action>)
    requires Inv(s)
    ensures Inv(Run(s, actions))
    decreases |actions|
  {
    if actions != [] {
      if Enabled(s, actions[0]) {
        StepKeepsInv(s, actions[0]);
        RunKeepsInv(Step(s, actions[0]), actions[1..]);
      } else {
        RunKeepsInv(s, actions[1..]);
      }
    }
  }

  lemma EveryInterleavingIsSound(limits: Limits, actions: seq<Action>)
    ensures var s := Run(Init(limits), actions);
            && s.used == Sum(Sizes(s.entries))
            && s.reserved == Sum(Reservations(s.puts))
            && 0 <= s.used && 0 <= s.reserved && s.used + s.reserved <= limits.maxBytes
            && (forall n :: n in s.entries ==> s.entries[n].leases == |Holders(s.leases, n)|)
            && s.dirRemovals <= 1
  {
    RunKeepsInv(Init(limits), actions);
    LimitsNeverChange(Init(limits), actions);
  }

  lemma StepKeepsLimits(s: State, a: Action)
    requires Enabled(s, a)
    ensures Step(s, a).limits == s.limits
  {
    hide Enabled, Retire, NarrowedLimit, OpenError, ReserveError, ReleaseError;
    RetireKeepsLimits();
  }

  lemma RetireKeepsLimits()
    ensures forall s, which, failing :: Retire(s, which, failing).limits == s.limits
  {
    hide Gone, Marked, Sizes, Sum;
  }

  lemma {:induction false} LimitsNeverChange(s: State, actions: seq<Action>)
    ensures Run(s, actions).limits == s.limits
    decreases |actions|
  {
    hide Step, Enabled;
    if actions != [] {
      if Enabled(s, actions[0]) {
        StepKeepsLimits(s, actions[0]);
        LimitsNeverChange(Step(s, actions[0]), actions[1..]);
      } else {
        LimitsNeverChange(s, actions[1..]);
      }
    }
  }

  /** No critical section takes a body away from a lease that stays open. */
  lemma {:induction false} LeasedBodySurvives(s: State, a: Action, l: nat)
    requires Inv(s) && Enabled(s, a)
    requires l in s.leases && l in Step(s, a).leases
    ensures var id := s.leases[l].id;
            var t := Step(s, a);
            id in s.entries && id in t.entries && id in t.files && t.leases[l].id == id
              && t.entries[id].ref == s.entries[id].ref
  {
    var id := s.leases[l].id;
    var t := Step(s, a);
    StepKeepsInv(s, a);
    LeaseKeepsItsBody(s, a, l);
    assert id in s.entries && id in t.entries && id in t.files by {
      hide Step, Accounts, SpoolOwned, Shutdown, Holders;
    }
    RefsKept(s, a, id);
    hide *;
  }

  lemma RetireKeepsRefs(s: State, which: set<Name>, failing: set<Name>, n: Name)
    requires n in s.entries && n in Retire(s, which, failing).entries
    ensures Retire(s, which, failing).entries[n].ref == s.entries[n].ref
  {
  }

  lemma OpenKeepsRefs(s: State, l: nat, owner: Owner, ref: BodyRef, now: int, fileOk: bool, failing: set<Name>, n: Name)
    requires n in s.entries && n in Open(s, l, owner, ref, now, fileOk, failing).entries
    ensures Open(s, l, owner, ref, now, fileOk, failing).entries[n].ref == s.entries[n].ref
  {
    hide Retire, ExpiredAt;
    if n in Retire(s, {ref.id}, failing).entries {
      RetireKeepsRefs(s, {ref.id}, failing, n);
    }
  }

  lemma DropKeepsRefs(s: State, l: nat, failing: set<Name>, n: Name)
    requires l in s.leases && n in s.entries && n in DropLease(s, l, failing).entries
    ensures DropLease(s, l, failing).entries[n].ref == s.entries[n].ref
  {
    hide Retire, LastLease;
    var id := s.leases[l].id;
    if id in s.entries && s.entries[id].leases > 0 {
      var u := Dropped(s, l);
      if n in Retire(u, {id}, failing).entries {
        RetireKeepsRefs(u, {id}, failing, n);
      }
    }
  }

  lemma SealedIsFresh(s: State, p: nat, ref: BodyRef)
    requires Inv(s) && InPhase(s, p, Spooling) && ref.id == s.puts[p].file
    ensures ref.id !in s.entries
  {
    hide Accounts, LeaseCounts, Shutdown;
    assert ref.id in s.spool;
  }

  lemma SealKeepsRefs(s: State, p: nat, ref: BodyRef, owner: Owner, fails: bool, n: Name)
    requires p in s.puts && n in s.entries && ref.id !in s.entries
    ensures n in Seal(s, p, ref, owner, fails).entries
              && Seal(s, p, ref, owner, fails).entries[n].ref == s.entries[n].ref
  {
  }

  lemma RefsKept(s: State, a: Action, n: Name)
    requires Inv(s) && Enabled(s, a) && n in s.entries && n in Step(s, a).entries
    ensures Step(s, a).entries[n].ref == s.entries[n].ref
  {
    hide Inv, Retire, Open, DropLease, Seal, ReserveError;
    match a {
      case ASeal(p, ref, owner, fails) =>
        SealedIsFresh(s, p, ref);
        SealKeepsRefs(s, p, ref, owner, fails, n);
      case AOpen(l, owner, ref, now, fileOk, failing) => OpenKeepsRefs(s, l, owner, ref, now, fileOk, failing, n);
      case ADropLease(l, failing) => DropKeepsRefs(s, l, failing, n);
      case ARelease(_, ref, failing) => if n in Retire(s, {ref.id},
        failing).entries { RetireKeepsRefs(s, {ref.id}, failing, n); }
      case APrune(now, failing) => RetireKeepsRefs(s, ExpiredEntries(s, now), failing, n);
      case AClose(failing) => if !s.closed { RetireKeepsRefs(s.(closed := true), s.entries.Keys, failing, n); }
      case _ =>
    }
  }

  lemma RetireKeepsLeases(s: State, which: set<Name>, failing: set<Name>)
    ensures Retire(s, which, failing).leases == s.leases && Retire(s, which, failing).limits == s.limits
  {
  }

  lemma DropKeepsOtherLeases(s: State, k: nat, failing: set<Name>)
    requires k in s.leases
    ensures DropLease(s, k, failing).leases == s.leases - {k}
  {
    hide Retire, LastLease;
    if s.leases[k].id in s.entries && s.entries[s.leases[k].id].leases > 0 {
      RetireKeepsLeases(Dropped(s, k), {s.leases[k].id}, failing);
    }
  }

  lemma OpenKeepsOtherLeases(s: State, l: nat, owner: Owner, ref: BodyRef, now: int, fileOk: bool, failing: set<Name>)
    ensures forall k :: k in s.leases && k != l ==>
              k in Open(s, l, owner, ref, now, fileOk, failing).leases
                && Open(s, l, owner, ref, now, fileOk, failing).leases[k] == s.leases[k]
  {
    hide Retire, OpenError;
    RetireKeepsLeases(s, {ref.id}, failing);
  }

  lemma LeaseKeepsItsBody(s: State, a: Action, l: nat)
    requires Enabled(s, a) && l in s.leases && l in Step(s, a).leases
    ensures Step(s, a).leases[l].id == s.leases[l].id
  {
    hide Retire, ReserveError, Open, DropLease;
    match a {
      case AOpen(k, owner, ref, now, fileOk, failing) => OpenKeepsOtherLeases(s, k, owner, ref, now, fileOk, failing);
      case ADropLease(k, failing) => DropKeepsOtherLeases(s, k, failing);
      case ARelease(_, ref, failing) => RetireKeepsLeases(s, {ref.id}, failing);
      case APrune(now, failing) => RetireKeepsLeases(s, ExpiredEntries(s, now), failing);
      case AClose(failing) => RetireKeepsLeases(s.(closed := true), s.entries.Keys, failing);
      case _ =>
    }
  }

  /** Once the store is closed, every put and lease has ended and every removal
      succeeded, nothing stays spooled and the directory was removed, once. */
  lemma QuiescentStoreIsEmpty(limits: Limits, actions: seq<Action>)
    ensures var s := Run(Init(limits), actions);
            s.closed && s.puts == map[] && s.leases == map[] && !s.removalFailed ==>
              s.files == {} && s.entries == map[] && s.used == 0 && s.reserved == 0 && s.dirRemovals == 1
  {
    var s := Run(Init(limits), actions);
    RunKeepsInv(Init(limits), actions);
    if s.closed && s.puts == map[] && s.leases == map[] && !s.removalFailed {
      assert forall n :: n in s.entries ==> Holders(s.leases, n) == {};
      assert s.entries == map[];
      assert Sizes(s.entries) == map[];
    }
  }
}
