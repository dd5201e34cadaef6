/** When a plan is supported: an exact condition that does not mention the order of the
    stages' dispositions, and what follows from it. */
module CompatibilityVerdict {
  import opened Sums
  import opened Names
  import opened Losses
  import opened Compatibility

  function FacetLosses(flat: seq<Mapping>, facet: Name): seq<Loss>
  {
    LossesOf(StagesOf(flat, facet))
  }

  /** A facet that is required or carries a loss has a report, no stage that fails
      closed, and only permitted losses. */
  ghost predicate Carried(flat: seq<Mapping>, policy: Policy, facet: Name)
  {
    facet in StringSet(policy.required) || FacetLosses(flat, facet) != [] ==>
      && StagesOf(flat, facet) != [] && !HasClosedStage(StagesOf(flat, facet))
      && forall l :: l in FacetLosses(flat, facet) ==> Permitted(policy, l.id)
  }

  /** Its losses are well-formed, agree with each other, and name every degradation
      that is not overruled. */
  ghost predicate WellDeclared(flat: seq<Mapping>, facet: Name)
  {
    && (forall l :: l in FacetLosses(flat, facet) ==> ValidLoss(l))
    && Consistent(FacetLosses(flat, facet))
    && (HasStage(StagesOf(flat, facet), Degraded) && FacetLosses(flat, facet) == [] ==>
         HasClosedStage(StagesOf(flat, facet)))
  }

  ghost predicate AgreeAcross(flat: seq<Mapping>, facets: set<Name>)
  {
    forall f, g, a, b ::
      f in facets && g in facets && a in FacetLosses(flat, f) && b in FacetLosses(flat, g) && a.id == b.id ==>
        SameValues(a, b)
  }

  ghost predicate Acceptable(flat: seq<Mapping>, policy: Policy)
  {
    var facets := Facets(flat) + StringSet(policy.required);
    && WellFormed(flat)
    && (forall f :: f in facets ==> WellDeclared(flat, f) && Carried(flat, policy, f))
    && AgreeAcross(flat, facets)
  }

  // ----- One facet ----------------------------------------------------------------------

  lemma RecordsShareValues(r: Loss, l: Loss)
    requires r.requested == CloneValue(l.requested) && r.effective == CloneValue(l.effective)
    ensures SameValues(r, l) && CanonicalLoss(r)
  {
  }

  lemma SharedByBoth(a: Loss, b: Loss, c: Loss)
    requires SameValues(a, b) && SameValues(b, c)
    ensures SameValues(a, c) && SameValues(b, a)
  {
  }

  ghost predicate StandsFor(r: Loss, ls: seq<Loss>)
  {
    CanonicalLoss(r) && exists l :: l in ls && l.id == r.id && SameValues(r, l)
  }

  ghost predicate StoodFor(l: Loss, rs: seq<Loss>)
  {
    HasId(rs, l.id) && SameValues(First(rs, l.id), l)
  }

  lemma RecordStandsForLosses(r: Loss, ls: seq<Loss>)
    requires RecordOf(r, ls)
    ensures StandsFor(r, ls)
  {
    RecordsShareValues(r, First(ls, r.id));
    assert First(ls, r.id) in ls;
  }

  lemma LossIsStoodFor(ls: seq<Loss>, rs: seq<Loss>, k: nat)
    requires Represents(rs, ls) && Agree(ls) && k < |ls|
    ensures StoodFor(ls[k], rs)
  {
    var id := ls[k].id;
    assert HasId(rs, id);
    var r := First(rs, id);
    assert RecordOf(rs[FirstAt(rs, id)], ls);
    RecordsShareValues(r, First(ls, id));
    assert SameValues(ls[FirstAt(ls, id)], ls[k]);
    SharedByBoth(r, First(ls, id), ls[k]);
  }

  /** The merged records and the declared losses stand for each other. */
  lemma RecordsCoverLosses(ls: seq<Loss>)
    requires MergeAll(ls).Some?
    ensures var rs := MergeAll(ls).value;
            && (rs == [] <==> ls == []) && DistinctIds(rs)
            && (forall i :: 0 <= i < |rs| ==> StandsFor(rs[i], ls))
            && (forall l :: l in ls ==> StoodFor(l, rs))
  {
    MergeAllSucceedsExactly(ls);
    ConsistentAgrees(ls);
    var rs := MergeAll(ls).value;
    hide MergeAll, Consistent, Agree, HasId, SameValues, CanonicalLoss;
    forall i | 0 <= i < |rs|
      ensures StandsFor(rs[i], ls)
    {
      RecordStandsForLosses(rs[i], ls);
    }
    forall l | l in ls
      ensures StoodFor(l, rs)
    {
      var k :| 0 <= k < |ls| && ls[k] == l;
      LossIsStoodFor(ls, rs, k);
    }
    NonemptyTogether(ls, rs);
  }

  lemma NonemptyTogether(ls: seq<Loss>, rs: seq<Loss>)
    requires Represents(rs, ls)
    ensures rs == [] <==> ls == []
  {
    if ls != [] {
      assert HasId(rs, ls[0].id);
    }
    if rs != [] {
      assert RecordOf(rs[0], ls);
    }
  }

  lemma PermittedTogether(policy: Policy, ls: seq<Loss>)
    requires MergeAll(ls).Some?
    ensures AllPermitted(policy, MergeAll(ls).value) <==> forall l :: l in ls ==> Permitted(policy, l.id)
  {
    hide Permitted, MergeAll, SameValues, CanonicalLoss;
    RecordsCoverLosses(ls);
    var rs := MergeAll(ls).value;
    if AllPermitted(policy, rs) {
      forall l | l in ls
        ensures Permitted(policy, l.id)
      {
        assert StoodFor(l, rs);
        assert Permitted(policy, rs[FirstAt(rs, l.id)].id);
      }
    }
  }

  lemma ValidTogether(ls: seq<Loss>)
    ensures AllValid(ls) <==> forall l :: l in ls ==> ValidLoss(l)
  {
  }

  lemma NoStages(flat: seq<Mapping>, facet: Name)
    requires StagesOf(flat, facet) == []
    ensures WellDeclared(flat, facet) && FacetLosses(flat, facet) == [] && !HasClosedStage([])
              && MergeAll([]) == Some([])
  {
  }

  lemma Combines(flat: seq<Mapping>, facet: Name)
    ensures Combine(flat, facet).Some? <==> WellDeclared(flat, facet)
    ensures Combine(flat, facet).Some? ==>
              var m := Combine(flat, facet).value;
              && m.facet == facet && MergeAll(FacetLosses(flat, facet)) == Some(m.losses)
              && (FailsClosed(m.disposition) <==> StagesOf(flat, facet) == [] || HasClosedStage(StagesOf(flat, facet)))
              && (m.disposition == Degraded <==> m.losses != [] && !FailsClosed(m.disposition))
              && m.disposition != Invalid
  {
    hide ValidLoss, AllValid, MergeAll, LossesOf, StagesOf, DispositionOf, HasStage, HasClosedStage, Consistent,
         PathsOf;
    var stages := StagesOf(flat, facet);
    var ls := LossesOf(stages);
    if stages == [] {
      NoStages(flat, facet);
      return;
    }
    DispositionIsTheWorst(stages);
    ValidTogether(ls);
    Merges(ls);
  }

  lemma Merges(ls: seq<Loss>)
    ensures MergeAll(ls).Some? <==> Consistent(ls)
    ensures MergeAll(ls).Some? ==> (MergeAll(ls).value == [] <==> ls == [])
  {
    MergeAllSucceedsExactly(ls);
    if MergeAll(ls).Some? {
      NonemptyTogether(ls, MergeAll(ls).value);
    }
  }

  lemma FacetVerdict(flat: seq<Mapping>, policy: Policy, facet: Name)
    ensures (Combine(flat, facet).Some? && !Blocks(policy, Judge(policy, Combine(flat, facet).value))) <==>
            WellDeclared(flat, facet) && Carried(flat, policy, facet)
  {
    hide Combine, WellDeclared, HasClosedStage, StagesOf, LossesOf, MergeAll, Permitted, AllPermitted, StringSet;
    Combines(flat, facet);
    var ls := FacetLosses(flat, facet);
    if Combine(flat, facet).Some? {
      PermittedTogether(policy, ls);
      Merges(ls);
    }
  }

  // ----- Across facets --------------------------------------------------------------------

  predicate Carries(m: Mapping, l: Loss)
  {
    m.disposition == Degraded && l in m.losses
  }

  lemma OneMoreDegraded(front: seq<Mapping>, last: Mapping, l: Loss)
    ensures (exists i :: 0 <= i < |front + [last]| && Carries((front + [last])[i], l)) <==>
            (exists i :: 0 <= i < |front| && Carries(front[i], l)) || Carries(last, l)
  {
    hide Carries;
    var all := front + [last];
    if i :| 0 <= i < |front| && Carries(front[i], l) {
      assert Carries(all[i], l);
    }
    if Carries(last, l) {
      assert Carries(all[|front|], l);
    }
  }

  lemma {:induction false} DegradedLossesAre(mappings: seq<Mapping>, l: Loss)
    ensures l in DegradedLosses(mappings) <==> exists i :: 0 <= i < |mappings| && Carries(mappings[i], l)
    decreases |mappings|
  {
    if mappings != [] {
      var n := |mappings| - 1;
      DegradedLossesAre(mappings[..n], l);
      assert mappings == mappings[..n] + [mappings[n]];
      OneMoreDegraded(mappings[..n], mappings[n], l);
      assert l in DegradedLosses(mappings) <==> l in DegradedLosses(mappings[..n]) || Carries(mappings[n], l);
    }
  }

  /** The judged mapping of an accepted facet: degraded exactly when it carries losses,
      and its records stand for the declared losses. */
  ghost predicate JudgedFrom(flat: seq<Mapping>, facet: Name, m: Mapping)
  {
    && (m.losses != [] <==> m.disposition == Degraded)
    && (forall i :: 0 <= i < |m.losses| ==> StandsFor(m.losses[i], FacetLosses(flat, facet)))
    && (forall l :: l in FacetLosses(flat, facet) ==> StoodFor(l, m.losses))
  }

  lemma GrantedRecordStands(policy: Policy, r: Loss, ls: seq<Loss>)
    requires StandsFor(r, ls)
    ensures StandsFor(Grant(policy, r), ls)
  {
    hide Permitted, AppendUnique;
    var l :| l in ls && l.id == r.id && SameValues(r, l);
    assert SameValues(Grant(policy, r), l);
  }

  lemma GrantedLossIsStoodFor(policy: Policy, rs: seq<Loss>, l: Loss)
    requires StoodFor(l, rs)
    ensures StoodFor(l, Granted(policy, rs))
  {
    hide Permitted, AppendUnique;
    var gs := Granted(policy, rs);
    var i := FirstAt(rs, l.id);
    assert gs[i] == Grant(policy, rs[i]) && gs[i].id == l.id;
    assert forall h :: 0 <= h < i ==> gs[h].id == rs[h].id;
    assert FirstAt(gs, l.id) == i;
  }

  lemma GrantsKeepRecords(policy: Policy, rs: seq<Loss>, ls: seq<Loss>)
    requires forall i :: 0 <= i < |rs| ==> StandsFor(rs[i], ls)
    requires forall l :: l in ls ==> StoodFor(l, rs)
    ensures forall i :: 0 <= i < |rs| ==> StandsFor(Granted(policy, rs)[i], ls)
    ensures forall l :: l in ls ==> StoodFor(l, Granted(policy, rs))
  {
    hide StandsFor, StoodFor, Grant;
    forall i | 0 <= i < |rs|
      ensures StandsFor(Granted(policy, rs)[i], ls)
    {
      GrantedRecordStands(policy, rs[i], ls);
    }
    forall l | l in ls
      ensures StoodFor(l, Granted(policy, rs))
    {
      GrantedLossIsStoodFor(policy, rs, l);
    }
  }

  lemma Judged(flat: seq<Mapping>, policy: Policy, facet: Name)
    requires WellDeclared(flat, facet) && Carried(flat, policy, facet)
    ensures Combine(flat, facet).Some? && JudgedFrom(flat, facet, Judge(policy, Combine(flat, facet).value))
  {
    hide Combine, WellDeclared, HasClosedStage, StagesOf, LossesOf, MergeAll, Permitted, AllPermitted, StringSet,
         StandsFor, StoodFor;
    Combines(flat, facet);
    FacetVerdict(flat, policy, facet);
    var ls := FacetLosses(flat, facet);
    RecordsCoverLosses(ls);
    GrantsKeepRecords(policy, MergeAll(ls).value, ls);
    PermittedTogether(policy, ls);
  }

  /** The plan's own records merge exactly when the facets agree with each other. */
  lemma CrossAgreement(flat: seq<Mapping>, facets: seq<Name>, ms: seq<Mapping>)
    requires |ms| == |facets| && forall i :: 0 <= i < |ms| ==> JudgedFrom(flat, facets[i], ms[i])
    requires forall i, l :: 0 <= i < |ms| && l in FacetLosses(flat, facets[i]) ==> ValidLoss(l)
    ensures MergeAll(DegradedLosses(ms)).Some? <==> AgreeAcross(flat, set f | f in facets)
  {
    hide FacetLosses, MergeAll, SameValues, ValidLoss, JudgedFrom, Consistent, Agree, AgreeAcross;
    var all := DegradedLosses(ms);
    RecordsAreCanonical(flat, facets, ms);
    MergeAllSucceedsExactly(all);
    if Consistent(all) {
      ConsistentAgrees(all);
      AgreementReachesLosses(flat, facets, ms);
    }
    if AgreeAcross(flat, set f | f in facets) {
      AgreementReachesRecords(flat, facets, ms);
      AgreeingIsConsistent(all);
    }
  }

  lemma StandingIsEncodable(r: Loss, ls: seq<Loss>)
    requires StandsFor(r, ls) && forall l :: l in ls ==> ValidLoss(l)
    ensures CanonicalLoss(r) && Encodable(r)
  {
  }

  lemma RecordsAreCanonical(flat: seq<Mapping>, facets: seq<Name>, ms: seq<Mapping>)
    requires |ms| == |facets| && forall i :: 0 <= i < |ms| ==> JudgedFrom(flat, facets[i], ms[i])
    requires forall i, l :: 0 <= i < |ms| && l in FacetLosses(flat, facets[i]) ==> ValidLoss(l)
    ensures var all := DegradedLosses(ms); forall k :: 0 <= k < |all| ==> CanonicalLoss(all[k]) && Encodable(all[k])
  {
    hide FacetLosses, ValidLoss, CanonicalLoss, Encodable, StandsFor, StoodFor;
    var all := DegradedLosses(ms);
    forall k | 0 <= k < |all|
      ensures CanonicalLoss(all[k]) && Encodable(all[k])
    {
      DegradedLossesAre(ms, all[k]);
      var i :| 0 <= i < |ms| && all[k] in ms[i].losses;
      var j :| 0 <= j < |ms[i].losses| && ms[i].losses[j] == all[k];
      StandingIsEncodable(all[k], FacetLosses(flat, facets[i]));
    }
  }

  lemma AgreementReachesLosses(flat: seq<Mapping>, facets: seq<Name>, ms: seq<Mapping>)
    requires |ms| == |facets| && forall i :: 0 <= i < |ms| ==> JudgedFrom(flat, facets[i], ms[i])
    requires Agree(DegradedLosses(ms))
    ensures AgreeAcross(flat, set f | f in facets)
  {
    hide FacetLosses, SameValues, JudgedFrom, DegradedLosses, Agree;
    forall f, g, a, b | f in facets && g in facets && a in FacetLosses(flat, f) && b in FacetLosses(flat, g)
      && a.id == b.id
      ensures SameValues(a, b)
    {
      var i :| 0 <= i < |facets| && facets[i] == f;
      var j :| 0 <= j < |facets| && facets[j] == g;
      var x := RecordFor(flat, f, ms, i, a);
      var y := RecordFor(flat, g, ms, j, b);
      AgreePair(DegradedLosses(ms), x, y);
      SharedByBoth(x, a, a) by { SelfSame(a); }
      SharedByBoth(a, x, y);
      SharedByBoth(a, y, b);
    }
  }

  lemma AgreePair(ls: seq<Loss>, a: Loss, b: Loss)
    requires Agree(ls) && a in ls && b in ls && a.id == b.id
    ensures SameValues(a, b)
  {
    hide SameValues;
    var p :| 0 <= p < |ls| && ls[p] == a;
    var q :| 0 <= q < |ls| && ls[q] == b;
    assert SameValues(ls[p], ls[q]);
  }

  lemma SelfSame(a: Loss)
    ensures SameValues(a, a)
  {
  }

  lemma RecordFor(flat: seq<Mapping>, facet: Name, ms: seq<Mapping>, i: nat, l: Loss) returns (r: Loss)
    requires i < |ms| && JudgedFrom(flat, facet, ms[i]) && l in FacetLosses(flat, facet)
    ensures r in DegradedLosses(ms) && r.id == l.id && SameValues(r, l)
  {
    hide FacetLosses, SameValues;
    assert StoodFor(l, ms[i].losses);
    r := First(ms[i].losses, l.id);
    assert r in ms[i].losses;
    DegradedLossesAre(ms, r);
  }

  lemma AgreementReachesRecords(flat: seq<Mapping>, facets: seq<Name>, ms: seq<Mapping>)
    requires |ms| == |facets| && forall i :: 0 <= i < |ms| ==> JudgedFrom(flat, facets[i], ms[i])
    requires AgreeAcross(flat, set f | f in facets)
    ensures Agree(DegradedLosses(ms))
  {
    hide FacetLosses, SameValues, CanonicalLoss;
    var all := DegradedLosses(ms);
    forall p, q | 0 <= p < |all| && 0 <= q < |all| && all[p].id == all[q].id
      ensures SameValues(all[p], all[q])
    {
      var i, a := DeclaredFor(flat, facets, ms, all[p]);
      var j, b := DeclaredFor(flat, facets, ms, all[q]);
      assert facets[i] in facets && facets[j] in facets;
      assert SameValues(a, b);
      SharedByBoth(all[p], a, b);
      SharedByBoth(all[q], b, b) by { SelfSame(b); }
      SharedByBoth(all[p], b, all[q]);
    }
  }

  lemma DeclaredFor(flat: seq<Mapping>, facets: seq<Name>, ms: seq<Mapping>, r: Loss) returns (i: nat, l: Loss)
    requires |ms| == |facets| && forall i :: 0 <= i < |ms| ==> JudgedFrom(flat, facets[i], ms[i])
    requires r in DegradedLosses(ms)
    ensures i < |facets| && l in FacetLosses(flat, facets[i]) && l.id == r.id && SameValues(r, l)
  {
    hide FacetLosses, SameValues, CanonicalLoss;
    DegradedLossesAre(ms, r);
    i :| 0 <= i < |ms| && r in ms[i].losses;
    var k :| 0 <= k < |ms[i].losses| && ms[i].losses[k] == r;
    assert StandsFor(ms[i].losses[k], FacetLosses(flat, facets[i]));
    l :| l in FacetLosses(flat, facets[i]) && l.id == r.id && SameValues(r, l);
  }

  // ----- The verdict ------------------------------------------------------------------------

  lemma FacetsOfThePlan(flat: seq<Mapping>, policy: Policy)
    ensures (set f | f in PlanFacets(flat, policy)) == Facets(flat) + StringSet(policy.required)
  {
  }

  lemma SupportsExactly(flat: seq<Mapping>, policy: Policy, facets: seq<Name>)
    requires JudgeAll(flat, facets, policy).Some?
    ensures Supports(policy, JudgeAll(flat, facets, policy).value) <==>
            forall i :: 0 <= i < |facets| ==> WellDeclared(flat, facets[i]) && Carried(flat, policy, facets[i])
  {
    hide Combine, Judge, Blocks, WellDeclared, Carried;
    JudgedFacets(flat, facets, policy);
    var ms := JudgeAll(flat, facets, policy).value;
    forall i | 0 <= i < |facets|
      ensures !Blocks(policy, ms[i]) <==> WellDeclared(flat, facets[i]) && Carried(flat, policy, facets[i])
    {
      FacetVerdict(flat, policy, facets[i]);
    }
  }

  /** The planner supports a request exactly when every report is well-formed, the loss
      records agree, every degradation is named or overruled, and each facet that is
      required or carries a loss is carried within the grants. */
  lemma {:induction false} SupportedExactly(flat: seq<Mapping>, policy: Policy)
    ensures ComposeFlat(flat, policy).supported <==> Acceptable(flat, policy)
  {
    hide Combine, Judge, WellDeclared, Carried, AgreeAcross, StringSet, Malformed, Supports, MergeAll, DegradedLosses;
    var facets := PlanFacets(flat, policy);
    FacetsOfThePlan(flat, policy);
    JudgedFacets(flat, facets, policy);
    if JudgeAll(flat, facets, policy).Some? {
      SupportsExactly(flat, policy, facets);
      AcceptedFacets(flat, policy, facets);
    } else {
      var i :| 0 <= i < |facets| && Combine(flat, facets[i]).None?;
      FacetVerdict(flat, policy, facets[i]);
      assert facets[i] in facets;
    }
  }

  lemma AcceptedFacets(flat: seq<Mapping>, policy: Policy, facets: seq<Name>)
    requires JudgeAll(flat, facets, policy).Some?
    ensures (forall i :: 0 <= i < |facets| ==> WellDeclared(flat, facets[i]) && Carried(flat, policy, facets[i])) ==>
              (MergeAll(DegradedLosses(JudgeAll(flat, facets, policy).value)).Some? <==>
                AgreeAcross(flat, set f | f in facets))
  {
    hide Combine, Judge, Carried, AgreeAcross, MergeAll, DegradedLosses, JudgedFrom, Consistent, HasStage,
         HasClosedStage, FacetLosses, ValidLoss;
    JudgedFacets(flat, facets, policy);
    if forall i :: 0 <= i < |facets| ==> WellDeclared(flat, facets[i]) && Carried(flat, policy, facets[i]) {
      var ms := JudgeAll(flat, facets, policy).value;
      forall i | 0 <= i < |facets|
        ensures JudgedFrom(flat, facets[i], ms[i])
      {
        Judged(flat, policy, facets[i]);
      }
      CrossAgreement(flat, facets, ms);
    }
  }

  /** The mappings of a supported plan. */
  lemma SupportedMappings(flat: seq<Mapping>, policy: Policy) returns (facets: seq<Name>, ms: seq<Mapping>)
    requires ComposeFlat(flat, policy).supported
    ensures facets == PlanFacets(flat, policy) && |ms| == |facets| && ms == ComposeFlat(flat, policy).mappings
    ensures forall i :: 0 <= i < |ms| ==> JudgedFrom(flat, facets[i], ms[i]) && Carried(flat, policy, facets[i])
    ensures MergeAll(DegradedLosses(ms)) == Some(ComposeFlat(flat, policy).losses)
              && ComposeFlat(flat, policy).fidelity == FidelityOf(ms)
    ensures forall i :: 0 <= i < |flat| ==> flat[i].facet in facets
  {
    hide Combine, Judge, Blocks, WellDeclared, Carried, JudgedFrom, MergeAll, DegradedLosses, FidelityOf, WellFormed;
    facets := PlanFacets(flat, policy);
    ms := ComposeFlat(flat, policy).mappings;
    FacetsOfThePlan(flat, policy);
    JudgedFacets(flat, facets, policy);
    SupportsExactly(flat, policy, facets);
    forall i | 0 <= i < |ms|
      ensures JudgedFrom(flat, facets[i], ms[i])
    {
      Judged(flat, policy, facets[i]);
    }
    forall i | 0 <= i < |flat|
      ensures flat[i].facet in facets
    {
      assert flat[i].facet in Facets(flat);
    }
  }

  lemma DeclaredLoss(flat: seq<Mapping>, i: nat, j: nat)
    requires i < |flat| && j < |flat[i].losses|
    ensures Anonymous(flat[i].losses[j]) in FacetLosses(flat, flat[i].facet)
  {
    hide LossesOf, StagesOf, Anonymous;
    StagesAreTheFacets(flat, flat[i].facet, flat[i]);
    assert DeclaredBy(flat[i], Anonymous(flat[i].losses[j]));
    LossesAreDeclared(StagesOf(flat, flat[i].facet), Anonymous(flat[i].losses[j]));
  }

  lemma DeclaringStage(flat: seq<Mapping>, facet: Name, l: Loss)
    requires l in FacetLosses(flat, facet)
    ensures exists i :: 0 <= i < |flat| && flat[i].losses != []
  {
    hide LossesOf, StagesOf, Anonymous;
    LossesAreDeclared(StagesOf(flat, facet), l);
    var m :| m in StagesOf(flat, facet) && DeclaredBy(m, l);
    StagesAreTheFacets(flat, facet, m);
    var i :| 0 <= i < |flat| && flat[i] == m;
  }

  /** A supported plan is lossy exactly when some stage declared a loss. */
  lemma {:induction false} LossyExactlyWithLosses(flat: seq<Mapping>, policy: Policy)
    requires ComposeFlat(flat, policy).supported
    ensures ComposeFlat(flat, policy).fidelity == LossyFidelity <==> exists i :: 0 <= i < |flat| && flat[i].losses != []
  {
    hide ComposeFlat, FacetLosses, StandsFor, SameValues, Anonymous, Carried, PlanFacets;
    var facets, ms := SupportedMappings(flat, policy);
    if i :| 0 <= i < |ms| && ms[i].disposition == Degraded {
      assert StandsFor(ms[i].losses[0], FacetLosses(flat, facets[i]));
      var l := StandIn(ms[i].losses[0], FacetLosses(flat, facets[i]));
      DeclaringStage(flat, facets[i], l);
    }
    if i :| 0 <= i < |flat| && flat[i].losses != [] {
      DeclaredLoss(flat, i, 0);
      var k :| 0 <= k < |facets| && facets[k] == flat[i].facet;
      assert StoodFor(Anonymous(flat[i].losses[0]), ms[k].losses);
      assert ms[k].losses != [];
    }
  }

  lemma StandIn(r: Loss, ls: seq<Loss>) returns (l: Loss)
    requires StandsFor(r, ls)
    ensures l in ls && l.id == r.id && SameValues(r, l)
  {
    l :| l in ls && l.id == r.id && SameValues(r, l);
  }

  lemma SourcesAreNoValues(l: Loss)
    ensures Anonymous(l).id == l.id && SameValues(Anonymous(l), l)
  {
  }

  /** A supported plan accounts for every declared loss, under a record with the same
      values, and lists no loss that is not permitted. */
  lemma {:induction false} PlanAccountsForLosses(flat: seq<Mapping>, policy: Policy, i: nat, j: nat, k: nat)
    requires ComposeFlat(flat, policy).supported
    ensures var plan := ComposeFlat(flat, policy);
            && (i < |flat| && j < |flat[i].losses| ==> StoodFor(flat[i].losses[j], plan.losses))
            && (k < |plan.losses| ==> Permitted(policy, plan.losses[k].id))
  {
    hide ComposeFlat, FacetLosses, StandsFor, SameValues, Anonymous, JudgedFrom, PlanFacets, MergeAll, DegradedLosses,
         Permitted, StringSet, HasClosedStage, StagesOf;
    var facets, ms := SupportedMappings(flat, policy);
    var plan := ComposeFlat(flat, policy);
    var all := DegradedLosses(ms);
    RecordsCoverLosses(all);
    if i < |flat| && j < |flat[i].losses| {
      var l := flat[i].losses[j];
      DeclaredLoss(flat, i, j);
      var f :| 0 <= f < |facets| && facets[f] == flat[i].facet;
      var r := RecordFor(flat, facets[f], ms, f, Anonymous(l));
      SourcesAreNoValues(l);
      assert StoodFor(r, plan.losses);
      SharedByBoth(First(plan.losses, l.id), r, Anonymous(l));
      SharedByBoth(First(plan.losses, l.id), Anonymous(l), l);
    }
    if k < |plan.losses| {
      assert StandsFor(plan.losses[k], all);
      var r := StandIn(plan.losses[k], all);
      var f, l := DeclaredFor(flat, facets, ms, r);
    }
  }

  // ----- What follows -------------------------------------------------------------------------

  ghost predicate AllCanonical(flat: seq<Mapping>)
  {
    forall m, i :: m in flat && 0 <= i < |m.losses| ==> CanonicalLoss(m.losses[i])
  }

  ghost predicate SameMappings(a: seq<Mapping>, b: seq<Mapping>)
  {
    forall m :: m in a <==> m in b
  }

  lemma SameStages(a: seq<Mapping>, b: seq<Mapping>, facet: Name)
    requires SameMappings(a, b)
    ensures SameMappings(StagesOf(a, facet), StagesOf(b, facet))
    ensures StagesOf(a, facet) == [] <==> StagesOf(b, facet) == []
  {
    forall m
      ensures m in StagesOf(a, facet) <==> m in StagesOf(b, facet)
    {
      StagesAreTheFacets(a, facet, m);
      StagesAreTheFacets(b, facet, m);
    }
    EmptyAlike(StagesOf(a, facet), StagesOf(b, facet));
    EmptyAlike(StagesOf(b, facet), StagesOf(a, facet));
  }

  lemma EmptyAlike<T>(a: seq<T>, b: seq<T>)
    requires forall m :: m in a <==> m in b
    ensures a == [] ==> b == []
  {
    if b != [] {
      assert b[0] in a;
    }
  }

  lemma SameDispositions(a: seq<Mapping>, b: seq<Mapping>, d: Disposition)
    requires SameMappings(a, b)
    ensures HasStage(a, d) ==> HasStage(b, d)
    ensures HasClosedStage(a) ==> HasClosedStage(b)
  {
    if HasStage(a, d) {
      var i :| 0 <= i < |a| && a[i].disposition == d;
      assert a[i] in b;
    }
    if HasClosedStage(a) {
      var i :| 0 <= i < |a| && FailsClosed(a[i].disposition);
      assert a[i] in b;
    }
  }

  lemma SameLosses(a: seq<Mapping>, b: seq<Mapping>, facet: Name)
    requires SameMappings(a, b)
    ensures forall l :: l in FacetLosses(a, facet) <==> l in FacetLosses(b, facet)
    ensures FacetLosses(a, facet) == [] <==> FacetLosses(b, facet) == []
  {
    hide LossesOf, StagesOf;
    SameStages(a, b, facet);
    forall l
      ensures l in FacetLosses(a, facet) <==> l in FacetLosses(b, facet)
    {
      LossesAreDeclared(StagesOf(a, facet), l);
      LossesAreDeclared(StagesOf(b, facet), l);
    }
    EmptyAlike(FacetLosses(a, facet), FacetLosses(b, facet));
    EmptyAlike(FacetLosses(b, facet), FacetLosses(a, facet));
  }

  lemma FacetLossesAreCanonical(flat: seq<Mapping>, facet: Name)
    requires AllCanonical(flat)
    ensures forall l :: l in FacetLosses(flat, facet) ==> CanonicalLoss(l)
  {
    hide LossesOf, StagesOf;
    forall l | l in FacetLosses(flat, facet)
      ensures CanonicalLoss(l)
    {
      LossesAreDeclared(StagesOf(flat, facet), l);
      var m :| m in StagesOf(flat, facet) && DeclaredBy(m, l);
      var i :| 0 <= i < |m.losses| && Anonymous(m.losses[i]) == l;
      StagesAreTheFacets(flat, facet, m);
      assert CanonicalLoss(m.losses[i]);
    }
  }

  lemma ConsistencyIsOrderFree(a: seq<Loss>, b: seq<Loss>)
    requires forall l :: l in a <==> l in b
    requires forall l :: l in a ==> CanonicalLoss(l) && ValidLoss(l)
    requires Consistent(a)
    ensures Consistent(b)
  {
    hide SameValues;
    ConsistentAgrees(a);
    hide Consistent, CanonicalLoss, ValidLoss;
    forall i, k | 0 <= i < |b| && 0 <= k < |b| && b[i].id == b[k].id
      ensures SameValues(b[i], b[k])
    {
      assert b[i] in a && b[k] in a;
      AgreePair(a, b[i], b[k]);
    }
    forall k | 0 <= k < |b|
      ensures CanonicalLoss(b[k]) && Encodable(b[k])
    {
      assert b[k] in a;
      ValidIsEncodable(b[k]);
    }
    AgreeingIsConsistent(b);
  }

  lemma ValidIsEncodable(l: Loss)
    requires ValidLoss(l)
    ensures Encodable(l)
  {
  }

  lemma FacetIsOrderFree(a: seq<Mapping>, b: seq<Mapping>, policy: Policy, facet: Name)
    requires SameMappings(a, b) && WellDeclared(a, facet) && Carried(a, policy, facet)
               && Consistent(FacetLosses(b, facet))
    ensures WellDeclared(b, facet) && Carried(b, policy, facet)
  {
    hide LossesOf, StagesOf, CanonicalLoss, ValidLoss, Consistent, Permitted, StringSet, HasStage, HasClosedStage;
    SameStages(a, b, facet);
    SameLosses(a, b, facet);
    SameDispositions(StagesOf(a, facet), StagesOf(b, facet), Degraded);
    SameDispositions(StagesOf(b, facet), StagesOf(a, facet), Degraded);
  }

  ghost predicate ConsistentFacets(flat: seq<Mapping>, facets: set<Name>)
  {
    forall f :: f in facets ==> Consistent(FacetLosses(flat, f))
  }

  lemma AcceptableIsOrderFree(a: seq<Mapping>, b: seq<Mapping>, policy: Policy)
    requires SameMappings(a, b) && Acceptable(a, policy) && ConsistentFacets(b, Facets(b) + StringSet(policy.required))
    ensures Acceptable(b, policy)
  {
    hide FacetLosses, WellDeclared, Carried, SameValues, StringSet, Malformed, Consistent;
    SameFacets(a, b);
    forall i | 0 <= i < |b|
      ensures !Malformed(b[i])
    {
      assert b[i] in a;
    }
    forall f | f in Facets(b) + StringSet(policy.required)
      ensures WellDeclared(b, f) && Carried(b, policy, f)
    {
      FacetIsOrderFree(a, b, policy, f);
    }
    forall f, g, x, y | f in Facets(b) + StringSet(policy.required) && g in Facets(b) + StringSet(policy.required)
                        && x in FacetLosses(b, f) && y in FacetLosses(b, g) && x.id == y.id
      ensures SameValues(x, y)
    {
      SameLosses(a, b, f);
      SameLosses(a, b, g);
    }
  }

  lemma SameFacets(a: seq<Mapping>, b: seq<Mapping>)
    requires SameMappings(a, b)
    ensures Facets(b) <= Facets(a)
  {
    forall f | f in Facets(b)
      ensures f in Facets(a)
    {
      var i :| 0 <= i < |b| && b[i].facet == f;
      assert b[i] in a;
    }
  }

  /** Reordering stages changes a supported verdict exactly when it puts a loss record
      before another of the same facet that it does not decode to. */
  lemma {:induction false} ReorderingMattersExactlyByFirstRecords(a: seq<Mapping>, b: seq<Mapping>, policy: Policy)
    requires SameMappings(a, b) && ComposeFlat(a, policy).supported
    ensures ComposeFlat(b, policy).supported <==> ConsistentFacets(b, Facets(b) + StringSet(policy.required))
  {
    hide ComposeFlat, FacetLosses, StringSet, Carried, AgreeAcross, Malformed, Consistent, ValidLoss, HasStage,
         HasClosedStage;
    SupportedExactly(a, policy);
    SupportedExactly(b, policy);
    if ConsistentFacets(b, Facets(b) + StringSet(policy.required)) {
      AcceptableIsOrderFree(a, b, policy);
    }
  }

  lemma CanonicalFacetsStayConsistent(a: seq<Mapping>, b: seq<Mapping>, policy: Policy)
    requires SameMappings(a, b) && AllCanonical(a) && Acceptable(a, policy)
    ensures ConsistentFacets(b, Facets(b) + StringSet(policy.required))
  {
    hide FacetLosses, StringSet, Carried, AgreeAcross, Malformed, Consistent, ValidLoss, HasStage, HasClosedStage,
         CanonicalLoss;
    SameFacets(a, b);
    forall f | f in Facets(b) + StringSet(policy.required)
      ensures Consistent(FacetLosses(b, f))
    {
      assert WellDeclared(a, f);
      SameLosses(a, b, f);
      FacetLossesAreCanonical(a, f);
      ConsistencyIsOrderFree(FacetLosses(a, f), FacetLosses(b, f));
    }
  }

  /** For canonical loss values the verdict depends only on which mappings were
      reported, not on their order or number. */
  lemma {:induction false} VerdictIsOrderFree(a: seq<Mapping>, b: seq<Mapping>, policy: Policy)
    requires SameMappings(a, b) && AllCanonical(a)
    ensures ComposeFlat(a, policy).supported == ComposeFlat(b, policy).supported
  {
    hide Acceptable, ComposeFlat;
    SupportedExactly(a, policy);
    SupportedExactly(b, policy);
    assert AllCanonical(b);
    if Acceptable(a, policy) {
      CanonicalFacetsStayConsistent(a, b, policy);
      AcceptableIsOrderFree(a, b, policy);
    }
    if Acceptable(b, policy) {
      CanonicalFacetsStayConsistent(b, a, policy);
      AcceptableIsOrderFree(b, a, policy);
    }
  }

  /** More grants, fewer denials, a wider ceiling. */
  ghost predicate AtLeastAsPermissive(wide: Policy, narrow: Policy)
  {
    && wide.required == narrow.required
    && StringSet(narrow.allowed) <= StringSet(wide.allowed)
    && StringSet(wide.denied) <= StringSet(narrow.denied)
    && StringSet(wide.ceilingDeny) <= StringSet(narrow.ceilingDeny)
    && (wide.allowOnly ==> narrow.allowOnly && StringSet(narrow.ceilingAllow) <= StringSet(wide.ceilingAllow))
  }

  /** The verdict is monotone in grants and antitone in denials and the ceiling. */
  lemma VerdictIsMonotone(flat: seq<Mapping>, wide: Policy, narrow: Policy)
    requires AtLeastAsPermissive(wide, narrow) && ComposeFlat(flat, narrow).supported
    ensures ComposeFlat(flat, wide).supported
  {
    SupportedExactly(flat, narrow);
    SupportedExactly(flat, wide);
    hide ComposeFlat, WellDeclared, FacetLosses, HasClosedStage, SameValues, StagesOf, AgreeAcross, Malformed;
    forall id | Permitted(narrow, id)
      ensures Permitted(wide, id)
    {
    }
  }

  lemma TwoStages(a: Mapping, b: Mapping, la: Loss, lb: Loss)
    requires a.facet == b.facet && a.losses == [la] && b.losses == [lb] && la.sources == [] && lb.sources == []
    ensures StagesOf([a, b], a.facet) == [a, b] && FacetLosses([a, b], a.facet) == [la, lb]
  {
    assert [a, b][..1] == [a] && [a][..0] == [];
    assert StagesOf([a], a.facet) == [a];
    assert LossesOf([a]) == [la];
  }

  lemma TwoRecords(la: Loss, lb: Loss)
    requires la.id == lb.id
    ensures Consistent([la, lb]) <==> Matches(CloneLoss(la), lb)
  {
    var ls := [la, lb];
    assert ls[..0] == [] && ls[..1] == [la];
    assert [la][0].id == lb.id;
    assert FirstAt([la], lb.id) == 0;
    assert Fits(ls, 0);
    assert Fits(ls, 1) <==> Matches(CloneLoss(la), lb);
  }

  const WIRE_REQUEST := Name("wire.request")
  const DROPPED := Name("dropped")

  function OneLoss(v: Value): Loss
  {
    Loss(DROPPED, v, v, [Name("body")], [])
  }

  function OneStage(v: Value): Mapping
  {
    Mapping(WIRE_REQUEST, [], Degraded, [OneLoss(v)])
  }

  const LENIENT := Policy([WIRE_REQUEST], [DROPPED], [], map[], false, [], [])

  lemma OneLossIsValid(v: Value)
    requires ValidValue(v)
    ensures ValidLoss(OneLoss(v)) && Permitted(LENIENT, DROPPED)
  {
    assert DROPPED in LENIENT.allowed;
  }

  lemma OneFacet(flat: seq<Mapping>, facet: Name)
    requires |flat| == 2 && flat[0].facet == facet && flat[1].facet == facet
    ensures Facets(flat) + StringSet([facet]) == {facet} || facet == UNSET
    ensures WIRE_REQUEST != UNSET
  {
    assert flat[0].facet == facet;
  }

  lemma DegradedStages(flat: seq<Mapping>)
    requires |flat| == 2 && flat[0].disposition == Degraded && flat[1].disposition == Degraded
    ensures !HasClosedStage(flat)
  {
  }

  lemma TwoDegradedStages(v: Value, w: Value)
    requires ValidValue(v) && ValidValue(w) && Encoded(CloneValue(v)) == Encoded(CloneValue(w))
    ensures ComposeFlat([OneStage(v), OneStage(w)], LENIENT).supported <==> SameJson(CloneValue(v), w)
  {
    hide ComposeFlat, StagesOf, LossesOf, Consistent, Encoded, CloneValue, HasStage, HasClosedStage, ValidLoss,
         ValidValue, Permitted, StringSet, Facets;
    var flat := [OneStage(v), OneStage(w)];
    SupportedExactly(flat, LENIENT);
    TwoStages(OneStage(v), OneStage(w), OneLoss(v), OneLoss(w));
    TwoRecords(OneLoss(v), OneLoss(w));
    OneLossIsValid(v);
    OneLossIsValid(w);
    OneFacet(flat, WIRE_REQUEST);
    DegradedStages(flat);
    assert WellDeclared(flat, WIRE_REQUEST) <==> SameJson(CloneValue(v), w);
    assert Carried(flat, LENIENT, WIRE_REQUEST);
    assert AgreeAcross(flat, {WIRE_REQUEST});
  }

  /** A raw value followed by its canonical form is accepted; the same two stages in
      the other order are not. */
  lemma RawValuesMakeOrderMatter()
    ensures exists a, b :: SameMappings([a, b], [b, a])
              && ComposeFlat([a, b], LENIENT).supported && !ComposeFlat([b, a], LENIENT).supported
  {
    var raw := Json(RawText(1, 5, Some((9, 4))));
    var canonical := Json(Canonical(9, 4));
    TwoDegradedStages(raw, canonical);
    TwoDegradedStages(canonical, raw);
    var a, b := OneStage(raw), OneStage(canonical);
    assert SameMappings([a, b], [b, a]);
  }
}
