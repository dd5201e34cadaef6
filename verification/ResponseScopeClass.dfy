/** The response scope object: one method per critical section of a put, an inline
    publication or the close, each proved to be the function of the same name in
    `ResponseScope`. */
module ResponseScopeClass {
  import opened Sums
  import opened ResponseScope

  class Scope {
    const maxBytes: nat
    const ports: map<Role, nat>
    var closed: bool
    var allowlistClosed: bool
    var used: int
    var pending: int
    var counts: map<Role, int>
    var puts: map<nat, Put>
    var artifacts: seq<Body>
    var allowed: set<nat>
    var closing: seq<Body>
    ghost var place: map<Body, Place>
    ghost var publishedBytes: nat
    ghost var published: map<Role, nat>

    ghost function State(): State
      reads this
    {
      ResponseScope.State(maxBytes, ports, closed, allowlistClosed, used, pending, counts, puts, artifacts, allowed,
                          closing, place, publishedBytes, published)
    }

    constructor (maxBytes: nat, ports: map<Role, nat>)
      ensures State() == Init(maxBytes, ports)
    {
      this.maxBytes, this.ports := maxBytes, ports;
      closed, allowlistClosed, used, pending := false, false, 0, 0;
      counts := map r | r in ports :: 0;
      puts, artifacts, allowed, closing := map[], [], {}, [];
      place, publishedBytes, published := map[], 0, map r | r in ports :: 0;
    }

    /** Reserves part of the budget before the body is read. */
    method Begin(p: nat, role: Role, requested: int, typeBound: nat) returns (grant: Option<nat>)
      requires p !in puts && Declared(State(), role) && typeBound > 0
      modifies this
      ensures State() == ResponseScope.Begin(old(State()), p, role, Wanted(requested, typeBound))
      ensures grant.Some? <==> old(Admits(State(), role))
      ensures grant.Some? ==> 0 < grant.value <= typeBound && (requested > 0 ==> grant.value <= requested)
      ensures grant.Some? ==> grant.value == puts[p].grant && grant.value <= maxBytes - old(used) - old(pending)
    {
      var want := if requested <= 0 || requested > typeBound then typeBound else requested;
      if closed || counts[role] + 1 > ports[role] {
        return None;
      }
      var remaining := maxBytes - used - pending;
      if remaining <= 0 {
        return None;
      }
      counts := counts[role := counts[role] + 1];
      if want > remaining {
        want := remaining;
      }
      pending := pending + want;
      puts := puts[p := Put(role, want, Writing)];
      grant := Some(want);
    }

    method Fail(p: nat)
      requires At(State(), p) && puts[p].phase.Writing?
      modifies this
      ensures State() == ResponseScope.Fail(old(State()), p)
    {
      var w := puts[p];
      pending := pending - w.grant;
      counts := counts[w.role := counts[w.role] - 1];
      puts := puts - {p};
    }

    method Spool(p: nat, body: Body)
      requires At(State(), p) && puts[p].phase.Writing?
      modifies `puts, `place
      ensures State() == ResponseScope.Spool(old(State()), p, body)
    {
      puts := puts[p := puts[p].(phase := Spooled(body))];
      place := place[body := InPut(p)];
    }

    /** The put comes back with its body; the scope may have closed meanwhile. */
    method Settle(p: nat) returns (counted: bool)
      requires At(State(), p) && puts[p].phase.Spooled?
      modifies this
      ensures State() == ResponseScope.Settle(old(State()), p)
      ensures counted <==> !closed
    {
      var w := puts[p];
      pending := pending - w.grant;
      if closed {
        counts := counts[w.role := counts[w.role] - 1];
        puts := puts[p := w.(phase := Doomed(w.phase.body))];
        return false;
      }
      used := used + w.phase.body.size;
      puts := puts[p := w.(phase := Counted(w.phase.body))];
      counted := true;
    }

    method Drop(p: nat)
      requires At(State(), p) && puts[p].phase.Counted?
      modifies `used, `counts, `puts
      ensures State() == ResponseScope.Drop(old(State()), p)
    {
      var w := puts[p];
      used := used - w.phase.body.size;
      counts := counts[w.role := counts[w.role] - 1];
      puts := puts[p := w.(phase := Doomed(w.phase.body))];
    }

    /** Appends first and takes the artifact back when the allowlist refuses it. */
    method Record(p: nat) returns (published: bool)
      requires At(State(), p) && puts[p].phase.Counted?
      modifies this
      ensures State() == ResponseScope.Record(old(State()), p)
      ensures published <==> !closed && !allowlistClosed
    {
      hide ResponseScope.Drop;
      var body := puts[p].phase.body;
      if closed {
        Drop(p);
        return false;
      }
      artifacts := artifacts + [body];
      if allowlistClosed {
        artifacts := artifacts[..|artifacts| - 1];
        assert State() == old(State());
        Drop(p);
        return false;
      }
      Publish(p, body);
      published := true;
    }

    /** The recorded body becomes readable and its put is done. */
    method Publish(p: nat, body: Body)
      requires p in puts && puts[p].role in published
      modifies `allowed, `puts, `place, `publishedBytes, `published
      ensures allowed == old(allowed) + {body.id} && puts == old(puts) - {p} && place == old(place)[body := Listed]
      ensures publishedBytes == old(publishedBytes) + body.size
      ensures var role := old(puts[p]).role; published == old(published)[role := old(published)[role] + 1]
    {
      var role := puts[p].role;
      allowed := allowed + {body.id};
      puts, place := puts - {p}, place[body := Listed];
      publishedBytes := publishedBytes + body.size;
      published := published[role := published[role] + 1];
    }

    method HandBack(p: nat) returns (body: Body)
      requires At(State(), p) && puts[p].phase.Doomed?
      modifies `puts, `place
      ensures State() == ResponseScope.HandBack(old(State()), p) && body == old(puts[p].phase.body)
    {
      body := puts[p].phase.body;
      puts, place := puts - {p}, place[body := Released];
    }

    method Inline(role: Role, size: nat) returns (ok: bool)
      requires Declared(State(), role)
      modifies this
      ensures State() == ResponseScope.Inline(old(State()), role, size)
      ensures ok <==> old(AdmitsInline(State(), role, size))
    {
      if closed || counts[role] >= ports[role] || size > maxBytes - used - pending {
        return false;
      }
      counts := counts[role := counts[role] + 1];
      used := used + size;
      publishedBytes := publishedBytes + size;
      published := published[role := published[role] + 1];
      ok := true;
    }

    /** The close's critical section: whoever comes first takes the recorded list. */
    method MarkClosed() returns (first: bool)
      requires closed ==> artifacts == []
      modifies this
      ensures State() == ResponseScope.Close(old(State())) && first == !old(closed)
    {
      if closed {
        return false;
      }
      closing, artifacts, closed, allowlistClosed, allowed := artifacts, [], true, true, {};
      place := map b | b in place :: if place[b] == Listed then Closing else place[b];
      first := true;
    }

    method CloseOne() returns (body: Body)
      requires closing != []
      modifies `closing, `place
      ensures State() == ResponseScope.CloseOne(old(State())) && body == old(closing)[0]
    {
      body := closing[0];
      place := place[body := Released];
      closing := closing[1..];
    }

    /** Closes once and hands back every recorded body. */
    method Close() returns (released: seq<Body>)
      requires Inv(State())
      modifies this
      ensures closed && Inv(State())
      ensures released == (if old(closed) then [] else old(artifacts)) && (!old(closed) ==> closing == [])
    {
      hide Inv, ResponseScope.Close, ResponseScope.CloseOne;
      ShutFacts(State());
      hide Shut;
      StepKeepsInv(State(), AClose);
      released := [];
      ghost var listed := artifacts;
      var first := MarkClosed();
      if !first {
        ClosedStays(old(State()));
        return;
      }
      ClosedTakes(old(State()));
      while closing != []
        invariant Inv(State()) && closed
        invariant released + closing == listed
        decreases |closing|
      {
        ghost var before := State();
        StepKeepsInv(before, ACloseOne);
        TakesFirst(before);
        var body := CloseOne();
        released := released + [body];
      }
    }
  }

  lemma ClosedStays(s: State)
    requires s.closed
    ensures ResponseScope.Close(s) == s
  {
  }

  lemma ClosedTakes(s: State)
    requires !s.closed
    ensures ResponseScope.Close(s).closed && ResponseScope.Close(s).closing == s.artifacts
  {
  }

  lemma TakesFirst(s: State)
    requires s.closing != []
    ensures ResponseScope.CloseOne(s).closing == s.closing[1..] && ResponseScope.CloseOne(s).closed == s.closed
  {
  }

  lemma ShutFacts(s: State)
    requires Inv(s)
    ensures Shut(s)
  {
  }
}
