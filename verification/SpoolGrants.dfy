/** What a response scope relies on when it spools a body: the store never returns one
    longer than the grant the scope asked it to respect. */
module SpoolGrants {
  import Sums
  import Store = ArtifactStore
  import Scope = ResponseScope

  // ----- The scope asks for a positive grant --------------------------------------------

  ghost predicate PositiveGrants(s: Scope.State)
  {
    forall p :: p in s.puts ==> s.puts[p].grant > 0
  }

  lemma {:induction false} GrantsArePositive(s: Scope.State, actions: seq<Scope.Action>)
    requires PositiveGrants(s)
    ensures PositiveGrants(Scope.Run(s, actions))
    decreases |actions|
  {
    if actions != [] {
      if Scope.Enabled(s, actions[0]) {
        GrantsArePositive(Scope.Step(s, actions[0]), actions[1..]);
      } else {
        GrantsArePositive(s, actions[1..]);
      }
    }
  }

  // ----- The store keeps the limit of a put ----------------------------------------------

  predicate OfAPut(a: Store.Action)
  {
    !(a.AOpen? || a.AMarkLeaseClosed? || a.ADropLease? || a.ARelease? || a.APrune? || a.AClose?)
  }

  lemma RetireKeepsPuts(s: Store.State)
    ensures forall which, failing :: Store.Retire(s, which, failing).puts == s.puts
  {
  }

  lemma EntryStepsKeepPuts(s: Store.State, a: Store.Action)
    requires Store.Enabled(s, a) && !OfAPut(a)
    ensures Store.Step(s, a).puts == s.puts
  {
    hide Store.Retire, Store.OpenError, Store.ReleaseError;
    RetireKeepsPuts(s);
    match a
    case ADropLease(l, failing) =>
      if s.leases[l].id in s.entries && s.entries[s.leases[l].id].leases > 0 {
        RetireKeepsPuts(Store.Dropped(s, l));
      }
    case AClose(failing) => RetireKeepsPuts(s.(closed := true));
    case _ =>
  }

  lemma StepKeepsTheLimit(s: Store.State, a: Store.Action, p: nat)
    requires Store.Enabled(s, a) && p in s.puts && a != Store.AFinishPut(p)
    ensures p in Store.Step(s, a).puts && Store.Step(s, a).puts[p].maxBytes == s.puts[p].maxBytes
  {
    hide Store.Retire, Store.Open, Store.AfterDrop, Store.Close, Store.Release, Store.Prune, Store.NarrowedLimit;
    if !OfAPut(a) {
      EntryStepsKeepPuts(s, a);
    }
  }

  lemma {:induction false} LimitIsKept(s: Store.State, actions: seq<Store.Action>, p: nat)
    requires p in s.puts && Store.AFinishPut(p) !in actions
    ensures p in Store.Run(s, actions).puts && Store.Run(s, actions).puts[p].maxBytes == s.puts[p].maxBytes
    decreases |actions|
  {
    hide Store.Step, Store.Enabled;
    if actions != [] {
      if Store.Enabled(s, actions[0]) {
        StepKeepsTheLimit(s, actions[0], p);
        LimitIsKept(Store.Step(s, actions[0]), actions[1..], p);
      } else {
        LimitIsKept(s, actions[1..], p);
      }
    }
  }

  lemma BeginKeepsInv(s: Store.State, p: nat, grant: nat)
    requires Store.Inv(s) && p !in s.puts
    ensures Store.Inv(Store.BeginPut(s, p, grant))
  {
    hide Store.Inv, Store.BeginPut;
    Store.StepKeepsInv(s, Store.ABeginPut(p, grant));
  }

  /** Whatever happens in the store meanwhile, the body a put seals is no longer than the
      positive limit it was begun with, and its name is no other body's. */
  lemma SealedBodyFitsItsGrant(s: Store.State, p: nat, grant: nat, actions: seq<Store.Action>, ref: Store.BodyRef,
                               owner: Store.Owner, fails: bool)
    requires Store.Inv(s) && !s.closed && p !in s.puts && grant > 0 && Store.AFinishPut(p) !in actions
    requires Store.Enabled(Store.Run(Store.BeginPut(s, p, grant), actions), Store.ASeal(p, ref, owner, fails))
    ensures ref.sizeBytes <= grant
    ensures ref.id !in Store.Run(Store.BeginPut(s, p, grant), actions).entries
  {
    hide Sums.Sum, Store.Sizes, Store.Reservations, Store.LeaseCounts, Store.Shutdown;
    var begun := Store.BeginPut(s, p, grant);
    var t := Store.Run(begun, actions);
    BeginKeepsInv(s, p, grant);
    Store.RunKeepsInv(begun, actions);
    LimitIsKept(begun, actions, p);
    Store.SealedIsFresh(t, p, ref);
  }

  /** So the scope may count on it: a body the store seals for one of its puts is one the
      put may take. */
  lemma StoreMeetsTheScope(scope: Scope.State, q: nat, s: Store.State, p: nat, actions: seq<Store.Action>,
                           ref: Store.BodyRef, owner: Store.Owner, fails: bool)
    requires Scope.At(scope, q) && scope.puts[q].phase.Writing? && PositiveGrants(scope)
    requires Store.Inv(s) && !s.closed && p !in s.puts && Store.AFinishPut(p) !in actions
    requires Store.Enabled(Store.Run(Store.BeginPut(s, p, scope.puts[q].grant), actions),
               Store.ASeal(p, ref, owner, fails))
    requires forall b :: b in scope.place ==> b.id != ref.id
    ensures Scope.Enabled(scope, Scope.ASpool(q, Scope.Body(ref.id, ref.sizeBytes)))
  {
    hide Store.Run, Store.Enabled, Store.BeginPut, Store.Inv;
    SealedBodyFitsItsGrant(s, p, scope.puts[q].grant, actions, ref, owner, fails);
  }
}
