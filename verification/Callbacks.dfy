/** The registry of authorization callback grants, reservations and listeners. Listening
    may fail at any time (`:= *`); an opened socket is tracked until it is closed. */
module Callbacks {
  import opened Sums

  type Owner = nat
  type Address = nat

  /** Owner 0 stands for the empty owner. */
  const NOBODY: Owner := 0

  const MAX_GRANTS := 8

  datatype Mode = Loopback | Proxied | Manual

  /** Who would receive a callback URL: nobody, a loopback socket, the configured HTTPS
      ingress, or the user by hand. */
  datatype Route = NoReceiver | Receiver(mode: Mode, address: Address)

  /** A requested callback. `needsAllocation` asks for a port to be chosen. */
  datatype Spec = Spec(action: nat, url: nat, required: bool, needsAllocation: bool, valid: bool, route: Route)

  datatype Key = Key(owner: Owner, action: nat)

  datatype Binding = Binding(spec: Spec, mode: Mode, address: Address)

  datatype Reservation = Reservation(requested: Spec, resolved: Spec, mode: Mode, address: Address)

  datatype View = View(action: nat, mode: Mode)

  type Bindings = map<Key, Binding>
  type Reservations = map<Key, Reservation>

  // ----- What the registry keeps ---------------------------------------------------------

  /** Every loopback grant and every loopback reservation has a live listener. */
  ghost predicate Live(bindings: Bindings, reservations: Reservations, listeners: set<Address>)
  {
    && (forall k :: k in bindings && bindings[k].mode == Loopback ==> bindings[k].address in listeners)
    && (forall k :: k in reservations && reservations[k].mode == Loopback ==> reservations[k].address in listeners)
  }

  predicate Uses(bindings: Bindings, reservations: Reservations, a: Address)
  {
    (exists k :: k in bindings && bindings[k].address == a)
    || (exists k :: k in reservations && reservations[k].mode == Loopback && reservations[k].address == a)
  }

  /** Every listener is used by some grant or loopback reservation. */
  ghost predicate AllUsed(bindings: Bindings, reservations: Reservations, listeners: set<Address>)
  {
    forall a :: a in listeners ==> Uses(bindings, reservations, a)
  }

  function WithoutOwner<V>(m: map<Key, V>, owner: Owner): map<Key, V>
  {
    map k | k in m && k.owner != owner :: m[k]
  }

  predicate OwnedBy<V>(m: map<Key, V>, owner: Owner)
  {
    forall k :: k in m ==> k.owner == owner
  }

  lemma PublishedIsLive(bindings: Bindings, reservations: Reservations, listeners: set<Address>, owner: Owner,
                        granted: Bindings, reserved: Reservations, created: set<Address>)
    requires Live(bindings, reservations, listeners)
    requires forall k :: k in granted && granted[k].mode == Loopback ==> granted[k].address in listeners + created
    requires forall k :: k in reserved && reserved[k].mode == Loopback ==> reserved[k].address in listeners + created
    ensures Live(WithoutOwner(bindings, owner) + granted, WithoutOwner(reservations, owner) + reserved,
              listeners + created)
    ensures Live(bindings, WithoutOwner(reservations, owner) + reserved, listeners + created)
  {
  }

  lemma PrunedIsLive(bindings: Bindings, reservations: Reservations, listeners: set<Address>, kept: set<Address>)
    requires Live(bindings, reservations, listeners)
    requires forall a :: a in kept <==> a in listeners && Uses(bindings, reservations, a)
    ensures Live(bindings, reservations, kept) && AllUsed(bindings, reservations, kept)
  {
    forall k | k in bindings && bindings[k].mode == Loopback
      ensures bindings[k].address in kept
    {
      assert Uses(bindings, reservations, bindings[k].address);
    }
    forall k | k in reservations && reservations[k].mode == Loopback
      ensures reservations[k].address in kept
    {
      assert Uses(bindings, reservations, reservations[k].address);
    }
  }

  /** A grant whose address is another action's loopback reservation of the same owner,
      without a reservation of its own. */
  predicate TakesReserved(reservations: Reservations, owner: Owner, k: Key, address: Address)
  {
    k !in reservations
    && exists r :: r in reservations && r.owner == owner && r.action != k.action && reservations[r].mode == Loopback
                   && reservations[r].address == address
  }

  predicate Conflicts(reservations: Reservations, owner: Owner, compiled: Bindings)
  {
    exists k :: k in compiled
      && ((k in reservations && reservations[k].resolved != compiled[k].spec)
          || TakesReserved(reservations, owner, k, compiled[k].address))
  }

  /** A grant that the user has to complete by hand is not registered. */
  predicate ByHand(reservations: Reservations, k: Key, mode: Mode)
  {
    mode == Manual || (k in reservations && reservations[k].mode == Manual)
  }

  function BindingOf(spec: Spec): Binding
    requires spec.route.Receiver?
  {
    Binding(spec, spec.route.mode, spec.route.address)
  }

  /** The requested grants of one owner, one per action. */
  ghost predicate Compiled(owner: Owner, specs: seq<Spec>, m: Bindings)
  {
    && (forall j :: 0 <= j < |specs| ==>
          && specs[j].valid && !specs[j].needsAllocation && specs[j].route.Receiver?
          && Key(owner, specs[j].action) in m && m[Key(owner, specs[j].action)] == BindingOf(specs[j]))
    && (forall k :: k in m ==> k.owner == owner && exists j :: 0 <= j < |specs| && specs[j].action == k.action)
    && (forall i, j :: 0 <= i < j < |specs| ==> specs[i].action != specs[j].action)
  }

  lemma CompileOne(owner: Owner, specs: seq<Spec>, m: Bindings, spec: Spec)
    requires Compiled(owner, specs, m) && spec.valid && !spec.needsAllocation && spec.route.Receiver?
               && Key(owner, spec.action) !in m
    ensures Compiled(owner, specs + [spec], m[Key(owner, spec.action) := BindingOf(spec)])
  {
    var longer, next := specs + [spec], m[Key(owner, spec.action) := BindingOf(spec)];
    forall k | k in next
      ensures exists j :: 0 <= j < |longer| && longer[j].action == k.action
    {
      if k in m {
        var j :| 0 <= j < |specs| && specs[j].action == k.action;
        assert longer[j].action == k.action;
      } else {
        assert longer[|specs|].action == k.action;
      }
    }
  }

  /** What became of one requested grant: by hand, or granted with a live listener. */
  ghost predicate Settled(reservations: Reservations, available: set<Address>, current: Bindings, key: Key, b: Binding,
                          view: View)
  {
    && view == View(key.action, if key in current then b.mode else Manual)
    && (key in current ==> !ByHand(reservations, key, b.mode) && (b.mode == Loopback ==> b.address in available))
    && (b.spec.required ==> ByHand(reservations, key, b.mode) || key in current)
  }

  /** The first i requested grants are settled, the others still wait. */
  ghost predicate Opened(owner: Owner, specs: seq<Spec>, i: nat, all: Bindings, reservations: Reservations,
                         available: set<Address>, current: Bindings, views: seq<View>)
  {
    && i == |views| <= |specs|
    && (forall k :: k in current ==> k in all && current[k] == all[k])
    && (forall j :: i <= j < |specs| ==> Key(owner, specs[j].action) in current)
    && (forall j :: 0 <= j < i ==>
          && Key(owner, specs[j].action) in all
          && Settled(reservations, available, current, Key(owner, specs[j].action), all[Key(owner, specs[j].action)],
               views[j]))
  }

  /** More listeners, and settling others, change nothing for a settled grant. */
  lemma StaysSettled(reservations: Reservations, a: set<Address>, b: set<Address>, x: Bindings, y: Bindings, key: Key,
                     grant: Binding, view: View)
    requires Settled(reservations, a, x, key, grant, view) && a <= b && (key in x <==> key in y)
    ensures Settled(reservations, b, y, key, grant, view)
  {
  }

  lemma OpenOne(owner: Owner, specs: seq<Spec>, i: nat, all: Bindings, reservations: Reservations, a: set<Address>,
                b: set<Address>, x: Bindings, y: Bindings, views: seq<View>, view: View)
    requires Compiled(owner, specs, all) && i < |specs| && Opened(owner, specs, i, all, reservations, a, x, views)
               && a <= b
    requires var key := Key(owner, specs[i].action);
             (y == x || y == x - {key}) && Settled(reservations, b, y, key, all[key], view)
    ensures Opened(owner, specs, i + 1, all, reservations, b, y, views + [view])
  {
    var next := views + [view];
    forall j | 0 <= j < i + 1
      ensures var key := Key(owner, specs[j].action); key in all && Settled(reservations, b, y, key, all[key], next[j])
    {
      if j < i {
        assert specs[j].action != specs[i].action;
        StaysSettled(reservations, a, b, x, y, Key(owner, specs[j].action), all[Key(owner, specs[j].action)], views[j]);
      }
    }
    forall j | i + 1 <= j < |specs|
      ensures Key(owner, specs[j].action) in y
    {
      assert specs[i].action != specs[j].action;
    }
  }

  lemma AllOpened(owner: Owner, specs: seq<Spec>, all: Bindings, reservations: Reservations, available: set<Address>,
                  granted: Bindings, views: seq<View>)
    requires Compiled(owner, specs, all) && Opened(owner, specs, |specs|, all, reservations, available, granted, views)
    ensures OwnedBy(granted, owner)
    ensures forall k ::
              k in granted ==>
                granted[k].mode != Manual && (granted[k].mode == Loopback ==> granted[k].address in available)
  {
    forall k | k in granted
      ensures granted[k].mode != Manual && (granted[k].mode == Loopback ==> granted[k].address in available)
    {
      var j :| 0 <= j < |specs| && specs[j].action == k.action;
      assert k == Key(owner, specs[j].action);
    }
  }

  // ----- Reservations -------------------------------------------------------------------------

  /** What a reserved callback may look like: an unchanged earlier reservation of the same
      request, or a new one whose listener, if it needs one, is open. */
  ghost predicate Reserved(earlier: Reservations, available: set<Address>, key: Key, spec: Spec, r: Reservation)
  {
    if key in earlier && earlier[key].requested == spec then r == earlier[key]
    else
      && r.requested == spec
      && (r.mode == Loopback ==> r.address in available)
      && (spec.needsAllocation && spec.route.Receiver? && spec.route.mode == Loopback ==>
           r.mode == Loopback && !r.resolved.needsAllocation)
      && (spec.required && spec.route.Receiver? ==> r.mode == spec.route.mode)
  }

  ghost predicate Pending(earlier: Reservations, available: set<Address>, owner: Owner, specs: seq<Spec>,
                          pending: Reservations)
  {
    && (forall j :: 0 <= j < |specs| ==>
          Key(owner, specs[j].action) in pending
          && Reserved(earlier, available, Key(owner, specs[j].action), specs[j], pending[Key(owner, specs[j].action)]))
    && (forall k :: k in pending ==> k.owner == owner && exists j :: 0 <= j < |specs| && specs[j].action == k.action)
  }

  lemma ReserveOne(earlier: Reservations, a: set<Address>, b: set<Address>, owner: Owner, specs: seq<Spec>,
                   pending: Reservations, spec: Spec, r: Reservation)
    requires Pending(earlier, a, owner, specs, pending) && a <= b
               && (forall j :: 0 <= j < |specs| ==> specs[j].action != spec.action)
    requires Reserved(earlier, b, Key(owner, spec.action), spec, r)
    ensures Pending(earlier, b, owner, specs + [spec], pending[Key(owner, spec.action) := r])
  {
    var longer, next := specs + [spec], pending[Key(owner, spec.action) := r];
    forall k | k in next
      ensures exists j :: 0 <= j < |longer| && longer[j].action == k.action
    {
      if k in pending {
        var j :| 0 <= j < |specs| && specs[j].action == k.action;
        assert longer[j].action == k.action;
      } else {
        assert longer[|specs|].action == k.action;
      }
    }
    forall j | 0 <= j < |longer|
      ensures var key := Key(owner, longer[j].action); key in next && Reserved(earlier, b, key, longer[j], next[key])
    {
      if j < |specs| {
        assert longer[j] == specs[j] && specs[j].action != spec.action;
      }
    }
  }

  lemma PendingIsLive(bindings: Bindings, earlier: Reservations, listeners: set<Address>, available: set<Address>,
                      owner: Owner, specs: seq<Spec>, pending: Reservations)
    requires Live(bindings, earlier, listeners) && listeners <= available
               && Pending(earlier, available, owner, specs, pending)
    ensures forall k :: k in pending && pending[k].mode == Loopback ==> pending[k].address in available
    ensures OwnedBy(pending, owner)
  {
    forall k | k in pending && pending[k].mode == Loopback
      ensures pending[k].address in available
    {
      var j :| 0 <= j < |specs| && specs[j].action == k.action;
      assert k == Key(owner, specs[j].action);
    }
  }

  class Registry {
    var closed: bool
    var bindings: Bindings
    var reservations: Reservations
    var listeners: set<Address>
    var sockets: set<Address>

    /** After every operation: grants and reservations are live, listeners are used and
        are exactly the open sockets, and a closed registry holds nothing. */
    ghost predicate Valid()
      reads this
    {
      && Live(bindings, reservations, listeners) && AllUsed(bindings, reservations, listeners) && sockets == listeners
      && (closed ==> bindings == map[] && reservations == map[] && listeners == {})
    }

    constructor ()
      ensures Valid() && !closed && bindings == map[] && reservations == map[] && listeners == {}
    {
      closed, bindings, reservations, listeners, sockets := false, map[], map[], {}, {};
    }

    // ----- Sockets ---------------------------------------------------------------------

    /** Listening may fail, and cannot succeed on an address that is already open. */
    method Listen(address: Address) returns (ok: bool)
      modifies `sockets
      ensures ok ==> address !in old(sockets) && sockets == old(sockets) + {address}
      ensures !ok ==> sockets == old(sockets)
    {
      ok := *;
      if address in sockets {
        ok := false;
      }
      if ok {
        sockets := sockets + {address};
      }
    }

    /** Closes the sockets a failed operation had opened. */
    method CloseCreated(created: set<Address>)
      modifies `sockets
      ensures sockets == old(sockets) - created
    {
      var todo := created;
      while todo != {}
        invariant todo <= created && sockets == old(sockets) - (created - todo)
        decreases |todo|
      {
        var a :| a in todo;
        sockets := sockets - {a};
        todo := todo - {a};
      }
    }

    /** Closes and forgets every listener nothing uses. */
    method Prune()
      requires Live(bindings, reservations, listeners) && sockets == listeners
      modifies `listeners, `sockets
      ensures Live(bindings, reservations, listeners) && AllUsed(bindings, reservations, listeners)
                && sockets == listeners
      ensures forall a :: a in listeners <==> a in old(listeners) && Uses(bindings, reservations, a)
    {
      hide Uses, Live, AllUsed;
      var todo := listeners;
      while todo != {}
        invariant todo <= listeners <= old(listeners) && sockets == listeners
        invariant forall a :: a in listeners <==> a in old(listeners) && (a in todo || Uses(bindings, reservations, a))
        decreases |todo|
      {
        var a :| a in todo;
        todo := todo - {a};
        if !Uses(bindings, reservations, a) {
          sockets := sockets - {a};
          listeners := listeners - {a};
        }
      }
      PrunedIsLive(bindings, reservations, old(listeners), listeners);
    }

    // ----- Replace ------------------------------------------------------------------------

    /** Checks the requested grants before anything is touched. */
    method Compile(owner: Owner, specs: seq<Spec>) returns (compiled: Option<Bindings>)
      ensures compiled.Some? ==> Compiled(owner, specs, compiled.value)
    {
      hide Compiled;
      var result: Bindings := map[];
      NothingCompiled(owner);
      for i := 0 to |specs|
        invariant Compiled(owner, specs[..i], result)
      {
        var spec, key := specs[i], Key(owner, specs[i].action);
        if !spec.valid || spec.needsAllocation || key in result || spec.route.NoReceiver? {
          return None;
        }
        CompileOne(owner, specs[..i], result, spec);
        assert specs[..i] + [spec] == specs[..i + 1];
        result := result[key := BindingOf(spec)];
      }
      assert specs[..|specs|] == specs;
      compiled := Some(result);
    }

    /** Opens the listeners of the grants that need one. Grants that end up by hand leave
        the compiled set; a required one that cannot listen fails the whole replacement. */
    method OpenListeners(owner: Owner, specs: seq<Spec>, all: Bindings)
      returns (granted: Option<Bindings>, created: set<Address>, views: seq<View>)
      requires sockets == listeners && Compiled(owner, specs, all)
      modifies `sockets
      ensures sockets == listeners + created && created !! listeners
      ensures granted.Some? ==>
                Opened(owner, specs, |specs|, all, reservations, listeners + created, granted.value, views)
    {
      hide Compiled, Opened, ByHand;
      var current := all;
      created, views := {}, [];
      NothingOpened(owner, specs, all, reservations, listeners);
      assert listeners + {} == listeners;
      for i := 0 to |specs|
        invariant sockets == listeners + created && created !! listeners
        invariant Opened(owner, specs, i, all, reservations, listeners + created, current, views)
      {
        var spec, key := specs[i], Key(owner, specs[i].action);
        SpecCompiled(owner, specs, i, all, reservations, listeners + created, current, views);
        ghost var before, available := current, listeners + created;
        var mode, address := all[key].mode, all[key].address;
        if ByHand(reservations, key, mode) {
          current := current - {key};
          OpenOne(owner, specs, i, all, reservations, available, available, before, current, views,
                  View(spec.action, Manual));
          views := views + [View(spec.action, Manual)];
          continue;
        }
        if mode == Loopback && address !in listeners && address !in created {
          var ok := Listen(address);
          if ok {
            created := created + {address};
          } else if spec.required {
            return None, created, views;
          } else {
            mode := Manual;
            current := current - {key};
          }
        }
        OpenOne(owner, specs, i, all, reservations, available, listeners + created, before, current, views,
                View(spec.action, mode));
        views := views + [View(spec.action, mode)];
      }
      granted := Some(current);
    }

    /** Replaces one owner's grants: all or nothing, and nobody else's change. */
    method Replace(owner: Owner, specs: seq<Spec>)
      returns (views: Option<seq<View>>, ghost all: Bindings, ghost granted: Bindings, ghost available: set<Address>)
      requires Valid()
      modifies this
      ensures Valid() && closed == old(closed)
      ensures views.None? ==>
                bindings == old(bindings) && reservations == old(reservations) && listeners == old(listeners)
                  && sockets == old(sockets)
      ensures views.Some? ==>
                !closed && bindings == WithoutOwner(old(bindings), owner) + granted && OwnedBy(granted, owner)
      ensures views.Some? ==> reservations == WithoutOwner(old(reservations), owner)
      ensures views.Some? ==>
                owner != NOBODY && |specs| <= MAX_GRANTS && Compiled(owner, specs, all)
                  && !Conflicts(old(reservations), owner, all)
      ensures views.Some? ==> Opened(owner, specs, |specs|, all, old(reservations), available, granted, views.value)
    {
      hide Live, AllUsed, Uses, Compiled, Opened, Conflicts;
      all, granted, available := map[], map[], {};
      if owner == NOBODY || |specs| > MAX_GRANTS {
        return None, all, granted, available;
      }
      var compiled := Compile(owner, specs);
      if compiled.None? || closed || Conflicts(reservations, owner, compiled.value) {
        return None, all, granted, available;
      }
      all := compiled.value;
      var acquired, created, seen := OpenListeners(owner, specs, compiled.value);
      if acquired.None? {
        CloseCreated(created);
        assert sockets == listeners;
        return None, all, granted, available;
      }
      granted, available := acquired.value, listeners + created;
      AllOpened(owner, specs, compiled.value, reservations, listeners + created, granted, seen);
      NothingReserved(reservations, owner);
      PublishedIsLive(bindings, reservations, listeners, owner, granted, map[], created);
      bindings := WithoutOwner(bindings, owner) + acquired.value;
      reservations := WithoutOwner(reservations, owner);
      listeners := listeners + created;
      Prune();
      views := Some(seen);
    }

    // ----- Reserve ------------------------------------------------------------------------

    /** The socket of one reservation, if it needs one. None fails the reservation. */
    method Allocate(spec: Spec, created: set<Address>) returns (r: Option<Reservation>, more: set<Address>)
      requires spec.route.Receiver? && sockets == listeners + created && created !! listeners
      modifies `sockets
      ensures sockets == listeners + more && more !! listeners && created <= more
      ensures r.Some? ==> forall key :: Reserved(map[], listeners + more, key, spec, r.value)
    {
      var mode, address, resolved := spec.route.mode, spec.route.address, spec;
      more := created;
      if mode == Loopback && (spec.needsAllocation || (address !in listeners && address !in created)) {
        var port: Address :| 0 <= port;
        var wanted := if spec.needsAllocation then port else address;
        var ok := Listen(wanted);
        if !ok {
          var cancelled: bool := *;
          if cancelled || spec.required || spec.needsAllocation {
            return None, more;
          }
          mode := Manual;
        } else {
          if spec.needsAllocation {
            address := wanted;
            resolved := spec.(needsAllocation := false, route := Receiver(Loopback, address));
          }
          more := created + {wanted};
        }
      }
      r := Some(Reservation(spec, resolved, mode, address));
    }

    /** Reserves callbacks for one owner: all or nothing. Requests already reserved in the
        same form keep their reservation. */
    method Reserve(owner: Owner, specs: seq<Spec>) returns (ok: bool, ghost pending: Reservations)
      requires Valid()
      modifies this
      ensures Valid() && closed == old(closed) && bindings == old(bindings)
      ensures !ok ==> reservations == old(reservations) && listeners == old(listeners) && sockets == old(sockets)
      ensures ok ==>
                !closed && reservations == WithoutOwner(old(reservations), owner) + pending && OwnedBy(pending, owner)
      ensures ok ==> exists available :: Pending(old(reservations), available, owner, specs, pending)
    {
      hide Live, AllUsed, Uses, Pending, Reserved;
      pending := map[];
      if owner == NOBODY || specs == [] || |specs| > MAX_GRANTS {
        return false, pending;
      }
      if exists i, j :: 0 <= i < j < |specs| && specs[i].action == specs[j].action {
        return false, pending;
      }
      if closed || exists i :: 0 <= i < |specs| && !specs[i].valid {
        return false, pending;
      }
      var created: set<Address> := {};
      var wanted: Reservations := map[];
      NothingPending(reservations, owner);
      assert listeners + {} == listeners;
      for i := 0 to |specs|
        invariant sockets == listeners + created && created !! listeners && listeners == old(listeners)
        invariant reservations == old(reservations) && bindings == old(bindings) && closed == old(closed)
        invariant Pending(reservations, listeners + created, owner, specs[..i], wanted)
      {
        var cancelled: bool := *;
        if cancelled || specs[i].route.NoReceiver? {
          CloseCreated(created);
          assert sockets == listeners;
          return false, pending;
        }
        var spec, key := specs[i], Key(owner, specs[i].action);
        assert specs[..i] + [spec] == specs[..i + 1];
        ghost var available := listeners + created;
        var r;
        if key in reservations && reservations[key].requested == spec {
          r := Some(reservations[key]);
          KeptReservation(reservations, available, key, spec);
        } else {
          var more;
          r, more := Allocate(spec, created);
          created := more;
          if r.None? {
            CloseCreated(created);
            assert sockets == listeners;
            return false, pending;
          }
          NewReservation(reservations, listeners + created, key, spec, r.value);
        }
        ReserveOne(reservations, available, listeners + created, owner, specs[..i], wanted, spec, r.value);
        wanted := wanted[key := r.value];
      }
      assert specs[..|specs|] == specs;
      pending := wanted;
      PendingIsLive(bindings, reservations, listeners, listeners + created, owner, specs, wanted);
      PublishedIsLive(bindings, reservations, listeners, owner, map[], wanted, created);
      reservations := WithoutOwner(reservations, owner) + wanted;
      listeners := listeners + created;
      Prune();
      ok := true;
    }

    // ----- Release and close ----------------------------------------------------------------

    /** Forgets one owner. */
    method Release(owner: Owner)
      requires Valid()
      modifies this
      ensures Valid() && closed == old(closed)
      ensures owner != NOBODY ==>
                bindings == WithoutOwner(old(bindings), owner) && reservations == WithoutOwner(old(reservations), owner)
      ensures owner == NOBODY ==>
                bindings == old(bindings) && reservations == old(reservations) && listeners == old(listeners)
      ensures listeners <= old(listeners)
    {
      hide Live, AllUsed, Uses;
      if owner == NOBODY {
        return;
      }
      ReleasedIsLive(bindings, reservations, listeners, owner);
      bindings, reservations := WithoutOwner(bindings, owner), WithoutOwner(reservations, owner);
      Prune();
      ClosedStaysEmpty(old(bindings), old(reservations), owner);
    }

    /** Closes for good. */
    method Close()
      requires Valid()
      modifies this
      ensures Valid() && closed && bindings == map[] && reservations == map[] && listeners == {} && sockets == {}
    {
      hide Live, AllUsed, Uses;
      closed, bindings, reservations := true, map[], map[];
      NothingIsLive(listeners);
      Prune();
    }
  }

  // ----- Negotiation --------------------------------------------------------------------------

  const MAX_ROUNDS := 8

  /** A driver transition while resources are being negotiated. */
  datatype Ask = Ask(prepare: bool, specs: seq<Spec>)

  predicate Needs(ask: Ask)
  {
    ask.prepare || exists i :: 0 <= i < |ask.specs| && ask.specs[i].needsAllocation
  }

  /** Reserves what each transition asks for and hands it to the driver, whose next answer
      may ask again: at most eight times, and a transition that passes asks for nothing. */
  method Negotiate(registry: Registry, owner: Owner, first: Ask) returns (final: Option<Ask>, advances: nat)
    requires registry.Valid()
    modifies registry
    ensures registry.Valid() && registry.bindings == old(registry.bindings)
    ensures advances <= MAX_ROUNDS && (final.Some? ==> !Needs(final.value))
    ensures final.Some? && advances == 0 ==> final.value == first && registry.reservations == old(registry.reservations)
  {
    var ask := first;
    advances := 0;
    while true
      invariant registry.Valid() && registry.bindings == old(registry.bindings) && advances <= MAX_ROUNDS
      invariant advances == 0 ==> ask == first && registry.reservations == old(registry.reservations)
      decreases MAX_ROUNDS - advances
    {
      var refused: bool := *;
      if refused {
        return None, advances;
      }
      if !Needs(ask) {
        return Some(ask), advances;
      }
      if advances >= MAX_ROUNDS {
        return None, advances;
      }
      var ok;
      ghost var pending;
      ok, pending := registry.Reserve(owner, ask.specs);
      var failed: bool := *;
      if !ok || failed {
        return None, advances;
      }
      ask := *;
      advances := advances + 1;
    }
  }

  lemma NothingCompiled(owner: Owner)
    ensures forall specs: seq<Spec> :: Compiled(owner, specs[..0], map[])
  {
  }

  lemma NothingOpened(owner: Owner, specs: seq<Spec>, all: Bindings, reservations: Reservations,
                      listeners: set<Address>)
    requires Compiled(owner, specs, all)
    ensures Opened(owner, specs, 0, all, reservations, listeners, all, [])
  {
  }

  lemma SpecCompiled(owner: Owner, specs: seq<Spec>, i: nat, all: Bindings, reservations: Reservations,
                     available: set<Address>, current: Bindings, views: seq<View>)
    requires Compiled(owner, specs, all) && i < |specs|
               && Opened(owner, specs, i, all, reservations, available, current, views)
    ensures var key := Key(owner, specs[i].action);
            key in all && key in current && all[key] == BindingOf(specs[i]) && specs[i].route.Receiver?
  {
  }

  lemma NothingReserved(reservations: Reservations, owner: Owner)
    ensures WithoutOwner(reservations, owner) + map[] == WithoutOwner(reservations, owner)
  {
  }

  lemma NothingPending(earlier: Reservations, owner: Owner)
    ensures forall available, specs: seq<Spec> :: Pending(earlier, available, owner, specs[..0], map[])
  {
  }

  lemma KeptReservation(earlier: Reservations, available: set<Address>, key: Key, spec: Spec)
    requires key in earlier && earlier[key].requested == spec
    ensures Reserved(earlier, available, key, spec, earlier[key])
  {
  }

  lemma NewReservation(earlier: Reservations, available: set<Address>, key: Key, spec: Spec, r: Reservation)
    requires !(key in earlier && earlier[key].requested == spec) && Reserved(map[], available, key, spec, r)
    ensures Reserved(earlier, available, key, spec, r)
  {
  }

  lemma ReleasedIsLive(bindings: Bindings, reservations: Reservations, listeners: set<Address>, owner: Owner)
    requires Live(bindings, reservations, listeners)
    ensures Live(WithoutOwner(bindings, owner), WithoutOwner(reservations, owner), listeners)
  {
  }

  lemma ClosedStaysEmpty(bindings: Bindings, reservations: Reservations, owner: Owner)
    ensures bindings == map[] ==> WithoutOwner(bindings, owner) == map[]
    ensures reservations == map[] ==> WithoutOwner(reservations, owner) == map[]
  {
  }

  lemma NothingIsLive(listeners: set<Address>)
    ensures Live(map[], map[], listeners) && forall a :: !Uses(map[], map[], a)
  {
  }
}
