/** The kernel composes what the adapter already composed. The second composition keeps
    every plan it accepts exactly as it was and never accepts one the first refused. */
module CompatibilityTwice {
  import opened Sums
  import opened Names
  import opened Losses
  import opened Compatibility
  import opened CompatibilityVerdict

  ghost predicate DistinctFacets(ms: seq<Mapping>)
  {
    forall i, j :: 0 <= i < j < |ms| ==> ms[i].facet != ms[j].facet
  }

  ghost predicate SettledLosses(policy: Policy, ls: seq<Loss>)
  {
    DistinctIds(ls) && forall i :: 0 <= i < |ls| ==> CanonicalLoss(ls[i]) && ls[i] == Grant(policy, Anonymous(ls[i]))
  }

  /** What a judged mapping looks like. */
  ghost predicate Settled(policy: Policy, m: Mapping)
  {
    && UniqueNames(m.paths) && SettledLosses(policy, m.losses) && m.disposition != Invalid
    && (m.losses != [] && !FailsClosed(m.disposition) ==> m.disposition == Degraded)
    && (m.disposition == Degraded ==> m.losses != [])
    && (!AllPermitted(policy, m.losses) ==> m.disposition == Unsupported)
  }

  ghost predicate StaysValid(m: Mapping)
  {
    AllValid(m.losses)
  }

  function Unsourced(ls: seq<Loss>): seq<Loss>
  {
    seq(|ls|, i requires 0 <= i < |ls| => Anonymous(ls[i]))
  }

  // ----- The first composition settles every facet --------------------------------------

  lemma {:induction false} MergedHaveNoSources(ls: seq<Loss>)
    requires forall i :: 0 <= i < |ls| ==> ls[i].sources == []
    ensures MergeAll(ls).Some? ==> forall i :: 0 <= i < |MergeAll(ls).value| ==> MergeAll(ls).value[i].sources == []
    decreases |ls|
  {
    if ls != [] {
      MergedHaveNoSources(ls[..|ls| - 1]);
    }
  }

  lemma {:induction false} DeclaredHaveNoSources(stages: seq<Mapping>)
    ensures forall i :: 0 <= i < |LossesOf(stages)| ==> LossesOf(stages)[i].sources == []
    decreases |stages|
  {
    if stages != [] {
      DeclaredHaveNoSources(stages[..|stages| - 1]);
    }
  }

  lemma {:induction false} PathsAreUnique(stages: seq<Mapping>)
    ensures UniqueNames(PathsOf(stages))
    decreases |stages|
  {
    if stages != [] {
      PathsAreUnique(stages[..|stages| - 1]);
      AppendUniqueIsUnique(PathsOf(stages[..|stages| - 1]), stages[|stages| - 1].paths);
    }
  }

  lemma RecordsAreCanonicalToo(ls: seq<Loss>)
    requires MergeAll(ls).Some?
    ensures DistinctIds(MergeAll(ls).value)
              && forall i :: 0 <= i < |MergeAll(ls).value| ==> CanonicalLoss(MergeAll(ls).value[i])
  {
    hide MergeAll, CanonicalLoss, SameValues;
    RecordsCoverLosses(ls);
    var rs := MergeAll(ls).value;
    forall i | 0 <= i < |rs|
      ensures CanonicalLoss(rs[i])
    {
      assert StandsFor(rs[i], ls);
    }
  }

  lemma GrantedAreSettled(policy: Policy, rs: seq<Loss>)
    requires DistinctIds(rs) && forall i :: 0 <= i < |rs| ==> CanonicalLoss(rs[i]) && rs[i].sources == []
    ensures SettledLosses(policy, Granted(policy, rs)) && Unsourced(Granted(policy, rs)) == rs
    ensures AllPermitted(policy, Granted(policy, rs)) <==> AllPermitted(policy, rs)
  {
    hide Permitted, AppendUnique;
    var gs := Granted(policy, rs);
    forall i | 0 <= i < |gs|
      ensures CanonicalLoss(gs[i]) && gs[i] == Grant(policy, Anonymous(gs[i])) && Anonymous(gs[i]) == rs[i]
                && gs[i].id == rs[i].id
    {
      assert gs[i] == Grant(policy, rs[i]);
    }
  }

  lemma CombinedRecords(flat: seq<Mapping>, facet: Name)
    requires Combine(flat, facet).Some?
    ensures var m := Combine(flat, facet).value;
            && UniqueNames(m.paths) && DistinctIds(m.losses)
            && forall i :: 0 <= i < |m.losses| ==> CanonicalLoss(m.losses[i]) && m.losses[i].sources == []
  {
    hide MergeAll, CanonicalLoss, LossesOf, PathsOf, DispositionOf, StagesOf;
    var stages := StagesOf(flat, facet);
    if stages != [] {
      PathsAreUnique(stages);
      DeclaredHaveNoSources(stages);
      MergedHaveNoSources(LossesOf(stages));
      RecordsAreCanonicalToo(LossesOf(stages));
    }
  }

  lemma JudgedIsSettled(flat: seq<Mapping>, policy: Policy, facet: Name)
    requires Combine(flat, facet).Some?
    ensures Settled(policy, Judge(policy, Combine(flat, facet).value))
              && Judge(policy, Combine(flat, facet).value).facet == facet
  {
    hide Combine, CanonicalLoss, Permitted, AllPermitted, MergeAll, StagesOf, LossesOf, HasClosedStage, WellDeclared,
         SettledLosses, UniqueNames;
    Combines(flat, facet);
    CombinedRecords(flat, facet);
    GrantedAreSettled(policy, Combine(flat, facet).value.losses);
  }

  // ----- The second composition finds each facet as it left it ---------------------------

  lemma {:induction false} OnlyStage(ms: seq<Mapping>, i: nat)
    requires DistinctFacets(ms) && i < |ms|
    ensures StagesOf(ms, ms[i].facet) == [ms[i]]
    decreases |ms|
  {
    var n := |ms| - 1;
    if i < n {
      OnlyStage(ms[..n], i);
    } else {
      NoStage(ms[..n], ms[n].facet);
    }
  }

  lemma {:induction false} NoStage(ms: seq<Mapping>, facet: Name)
    requires forall i :: 0 <= i < |ms| ==> ms[i].facet != facet
    ensures StagesOf(ms, facet) == []
    decreases |ms|
  {
    if ms != [] {
      NoStage(ms[..|ms| - 1], facet);
    }
  }

  lemma OneStageOnly(m: Mapping)
    requires UniqueNames(m.paths) && m.disposition != Invalid
    ensures LossesOf([m]) == Unsourced(m.losses) && PathsOf([m]) == m.paths && DispositionOf([m]) == m.disposition
  {
    hide AppendUnique, AppendOne, Anonymous;
    UniqueListsAreKept(m.paths);
    assert [m][..0] == [];
    OnlyLosses(m);
  }

  lemma OnlyLosses(m: Mapping)
    ensures LossesOf([m]) == Unsourced(m.losses)
  {
    hide Anonymous;
    assert [m][..0] == [];
    assert [] + Unsourced(m.losses) == Unsourced(m.losses);
  }

  lemma UnsourcedFacts(policy: Policy, ls: seq<Loss>)
    requires SettledLosses(policy, ls)
    ensures MergeAll(Unsourced(ls)) == Some(Unsourced(ls)) && Granted(policy, Unsourced(ls)) == ls
    ensures AllPermitted(policy, Unsourced(ls)) <==> AllPermitted(policy, ls)
    ensures AllValid(Unsourced(ls)) <==> AllValid(ls)
  {
    hide Permitted, AppendUnique, MergeAll;
    var us := Unsourced(ls);
    forall i | 0 <= i < |ls|
      ensures CanonicalLoss(us[i]) && us[i].id == ls[i].id && (ValidLoss(us[i]) <==> ValidLoss(ls[i]))
    {
      SourcesDoNotMatter(ls[i]);
    }
    hide CanonicalLoss, ValidLoss;
    assert AllValid(us) ==> AllValid(ls) by {
      assert forall i :: 0 <= i < |ls| ==> (ValidLoss(us[i]) ==> ValidLoss(ls[i]));
    }
    DistinctRecordsAreKept(us);
  }

  lemma SourcesDoNotMatter(l: Loss)
    ensures CanonicalLoss(Anonymous(l)) <==> CanonicalLoss(l)
    ensures ValidLoss(Anonymous(l)) <==> ValidLoss(l)
  {
  }

  lemma Recombines(ms: seq<Mapping>, policy: Policy, i: nat)
    requires DistinctFacets(ms) && i < |ms| && Settled(policy, ms[i])
    ensures Combine(ms, ms[i].facet).Some? <==> StaysValid(ms[i])
    ensures Combine(ms, ms[i].facet).Some? ==> Judge(policy, Combine(ms, ms[i].facet).value) == ms[i]
  {
    hide MergeAll, Granted, LossesOf, PathsOf, StagesOf, DispositionOf, AllPermitted, AllValid, SettledLosses;
    OnlyStage(ms, i);
    OneStageOnly(ms[i]);
    UnsourcedFacts(policy, ms[i].losses);
    var us := Unsourced(ms[i].losses);
    assert us == [] <==> ms[i].losses == [];
    if Combine(ms, ms[i].facet).Some? {
      assert Combine(ms, ms[i].facet).value == Mapping(ms[i].facet, ms[i].paths, WithLosses(ms[i].disposition, us), us);
      assert WithLosses(ms[i].disposition, us) == ms[i].disposition;
    }
  }

  lemma JudgesTheSame(ms: seq<Mapping>, facets: seq<Name>, policy: Policy)
    requires DistinctFacets(ms) && |ms| == |facets|
               && forall i :: 0 <= i < |ms| ==> ms[i].facet == facets[i] && Settled(policy, ms[i])
    ensures JudgeAll(ms, facets, policy) == if forall i :: 0 <= i < |ms| ==> StaysValid(ms[i]) then Some(ms) else None
  {
    hide Combine, Judge, Settled, StaysValid;
    JudgedFacets(ms, facets, policy);
    forall i | 0 <= i < |ms|
      ensures Combine(ms, facets[i]).Some? <==> StaysValid(ms[i])
      ensures Combine(ms, facets[i]).Some? ==> Judge(policy, Combine(ms, facets[i]).value) == ms[i]
    {
      Recombines(ms, policy, i);
    }
    if JudgeAll(ms, facets, policy).Some? {
      var again := JudgeAll(ms, facets, policy).value;
      assert forall i :: 0 <= i < |ms| ==> again[i] == ms[i];
      assert again == ms;
    }
  }

  /** The mappings of a plan that was not rejected outright. */
  ghost predicate PlanMappings(policy: Policy, facets: seq<Name>, ms: seq<Mapping>)
  {
    && |ms| == |facets| && DistinctFacets(ms)
    && forall i :: 0 <= i < |ms| ==> ms[i].facet == facets[i] && Settled(policy, ms[i])
  }

  lemma FirstCompositionSettles(flat: seq<Mapping>, policy: Policy)
    requires JudgeAll(flat, PlanFacets(flat, policy), policy).Some?
    ensures PlanMappings(policy, PlanFacets(flat, policy), JudgeAll(flat, PlanFacets(flat, policy), policy).value)
  {
    hide Combine, Judge, Settled;
    var facets := PlanFacets(flat, policy);
    JudgedFacets(flat, facets, policy);
    var ms := JudgeAll(flat, facets, policy).value;
    forall i | 0 <= i < |ms|
      ensures ms[i].facet == facets[i] && Settled(policy, ms[i])
    {
      JudgedIsSettled(flat, policy, facets[i]);
    }
    forall i, j | 0 <= i < j < |ms|
      ensures ms[i].facet != ms[j].facet
    {
      assert Less(facets[i], facets[j]);
      Order(facets[i], facets[i]);
    }
  }

  lemma SameFacetList(flat: seq<Mapping>, policy: Policy, ms: seq<Mapping>)
    requires PlanMappings(policy, PlanFacets(flat, policy), ms)
    ensures PlanFacets(ms, policy) == PlanFacets(flat, policy)
  {
    hide Settled;
    var facets := PlanFacets(flat, policy);
    forall f
      ensures f in Facets(ms) <==> f in facets
    {
      if f in facets {
        var i :| 0 <= i < |facets| && facets[i] == f;
        assert ms[i].facet == f;
      }
    }
    assert Facets(ms) + StringSet(policy.required) == Facets(flat) + StringSet(policy.required);
  }

  lemma NoneMalformed(flat: seq<Mapping>, policy: Policy, ms: seq<Mapping>)
    requires PlanMappings(policy, PlanFacets(flat, policy), ms)
    requires WellFormed(flat)
    ensures WellFormed(ms)
  {
    var facets := PlanFacets(flat, policy);
    forall i | 0 <= i < |ms|
      ensures !Malformed(ms[i])
    {
      assert facets[i] in facets;
    }
  }

  lemma ComposeAgain(flat: seq<Mapping>, policy: Policy)
    requires WellFormed(flat) && JudgeAll(flat, PlanFacets(flat, policy), policy).Some?
    ensures var ms := JudgeAll(flat, PlanFacets(flat, policy), policy).value;
            ComposeFlat(ms, policy) == if forall i ::
              0 <= i < |ms| ==> StaysValid(ms[i]) then Finish(policy, ms) else REJECTED
  {
    hide Combine, Judge, Settled, JudgeAll, PlanFacets, Malformed, StaysValid, Finish;
    var ms := JudgeAll(flat, PlanFacets(flat, policy), policy).value;
    FirstCompositionSettles(flat, policy);
    SameFacetList(flat, policy, ms);
    NoneMalformed(flat, policy, ms);
    JudgesTheSame(ms, PlanFacets(flat, policy), policy);
  }

  lemma NothingToCompose(policy: Policy)
    requires StringSet(policy.required) != {}
    ensures !ComposeFlat([], policy).supported
  {
    hide ComposeFlat, Consistent, HasStage, HasClosedStage;
    SupportedExactly([], policy);
    var f :| f in StringSet(policy.required);
    assert StagesOf([], f) == [];
    assert !Carried([], policy, f);
  }

  // ----- Which loss values make the second trip -------------------------------------------

  /** The declared values are still valid once decoded and encoded again. */
  predicate Survives(l: Loss)
  {
    ValidValue(CloneValue(l.requested)) && ValidValue(CloneValue(l.effective))
  }

  ghost predicate ValuesSurvive(flat: seq<Mapping>)
  {
    forall i, j :: 0 <= i < |flat| && 0 <= j < |flat[i].losses| ==> Survives(flat[i].losses[j])
  }

  lemma RecordSurvivesAlike(r: Loss, l: Loss)
    requires CanonicalLoss(r) && SameValues(r, l)
    ensures Survives(l) <==> ValidValue(r.requested) && ValidValue(r.effective)
  {
  }

  lemma {:induction false} AppendedPaths(target: seq<Name>, values: seq<Name>)
    requires ValidPaths(target) && ValidPaths(values)
    ensures ValidPaths(AppendUnique(target, values))
  {
    var result := AppendUnique(target, values);
    forall i | 0 <= i < |result|
      ensures result[i] != UNSET && |result[i].text| <= MAX_PATH_BYTES
    {
      AppendUniqueAddsExactly(target, values, result[i]);
    }
    AppendUniqueAddsExactly(target, values, target[0]);
  }

  lemma {:induction false} MergedPaths(ls: seq<Loss>)
    requires MergeAll(ls).Some? && forall i :: 0 <= i < |ls| ==> ValidPaths(ls[i].paths)
    ensures forall i :: 0 <= i < |MergeAll(ls).value| ==> ValidPaths(MergeAll(ls).value[i].paths)
    decreases |ls|
  {
    hide ValidPaths, AppendUnique, Matches;
    if ls != [] {
      var front, last := ls[..|ls| - 1], ls[|ls| - 1];
      MergedPaths(front);
      var rs := MergeAll(front).value;
      if HasId(rs, last.id) {
        AppendedPaths(rs[FirstAt(rs, last.id)].paths, last.paths);
      }
    }
  }

  lemma MergedStayValid(ls: seq<Loss>)
    requires MergeAll(ls).Some? && forall l :: l in ls ==> ValidLoss(l)
    ensures AllValid(MergeAll(ls).value) <==> forall l :: l in ls ==> Survives(l)
  {
    hide MergeAll, Survives, SameValues, CanonicalLoss, ValidValue, ValidPaths, ValidId;
    RecordsCoverLosses(ls);
    assert forall i :: 0 <= i < |ls| ==> ValidLoss(ls[i]);
    MergedPaths(ls);
    var rs := MergeAll(ls).value;
    forall i | 0 <= i < |rs|
      ensures CanonicalLoss(rs[i]) && ValidId(rs[i].id)
    {
      assert StandsFor(rs[i], ls);
    }
    if forall l :: l in ls ==> Survives(l) {
      forall i | 0 <= i < |rs|
        ensures ValidLoss(rs[i])
      {
        assert StandsFor(rs[i], ls);
        var l := StandIn(rs[i], ls);
        RecordSurvivesAlike(rs[i], l);
      }
    }
    if AllValid(rs) {
      forall l | l in ls
        ensures Survives(l)
      {
        assert StoodFor(l, rs);
        assert ValidLoss(rs[FirstAt(rs, l.id)]);
        RecordSurvivesAlike(First(rs, l.id), l);
      }
    }
  }

  lemma GrantsStayValid(policy: Policy, rs: seq<Loss>)
    ensures AllValid(Granted(policy, rs)) <==> AllValid(rs)
  {
    hide Permitted, ValidId, ValidValue, ValidPaths;
    forall i | 0 <= i < |rs|
      ensures ValidLoss(Granted(policy, rs)[i]) <==> ValidLoss(rs[i])
    {
      assert Granted(policy, rs)[i] == Grant(policy, rs[i]);
    }
    hide ValidLoss, Grant;
    assert AllValid(Granted(policy, rs)) ==> AllValid(rs) by {
      assert forall i :: 0 <= i < |rs| ==> (ValidLoss(Granted(policy, rs)[i]) ==> ValidLoss(rs[i]));
    }
  }

  lemma FacetStaysValid(flat: seq<Mapping>, policy: Policy, facet: Name)
    requires Combine(flat, facet).Some?
    ensures StaysValid(Judge(policy, Combine(flat, facet).value)) <==>
              forall l :: l in FacetLosses(flat, facet) ==> Survives(l)
  {
    hide Combine, Survives, ValidLoss, AllValid, MergeAll, FacetLosses, Granted, AllPermitted, HasStage, HasClosedStage,
         Consistent;
    Combines(flat, facet);
    MergedStayValid(FacetLosses(flat, facet));
    GrantsStayValid(policy, Combine(flat, facet).value.losses);
  }

  lemma AnonymousSurvives(l: Loss)
    ensures Survives(Anonymous(l)) <==> Survives(l)
  {
  }

  lemma FacetsSurvive(flat: seq<Mapping>)
    ensures ValuesSurvive(flat) <==> forall f, l :: f in Facets(flat) && l in FacetLosses(flat, f) ==> Survives(l)
  {
    hide Survives, LossesOf, StagesOf, Anonymous;
    if ValuesSurvive(flat) {
      forall f, l | f in Facets(flat) && l in FacetLosses(flat, f)
        ensures Survives(l)
      {
        LossesAreDeclared(StagesOf(flat, f), l);
        var m :| m in StagesOf(flat, f) && DeclaredBy(m, l);
        StagesAreTheFacets(flat, f, m);
        var i :| 0 <= i < |flat| && flat[i] == m;
        var j :| 0 <= j < |m.losses| && Anonymous(m.losses[j]) == l;
        AnonymousSurvives(flat[i].losses[j]);
      }
    }
    if forall f, l :: f in Facets(flat) && l in FacetLosses(flat, f) ==> Survives(l) {
      forall i, j | 0 <= i < |flat| && 0 <= j < |flat[i].losses|
        ensures Survives(flat[i].losses[j])
      {
        DeclaredLoss(flat, i, j);
        assert flat[i].facet in Facets(flat);
        AnonymousSurvives(flat[i].losses[j]);
      }
    }
  }

  lemma NoLossesElsewhere(flat: seq<Mapping>, f: Name)
    requires f !in Facets(flat)
    ensures FacetLosses(flat, f) == []
  {
    forall i | 0 <= i < |flat|
      ensures flat[i].facet != f
    {
      assert flat[i].facet in Facets(flat);
    }
    NoStage(flat, f);
  }

  /** A plan's mappings stay valid exactly when every declared loss value survives. */
  lemma StayValidExactly(flat: seq<Mapping>, policy: Policy)
    requires JudgeAll(flat, PlanFacets(flat, policy), policy).Some?
    ensures var ms := JudgeAll(flat, PlanFacets(flat, policy), policy).value;
            (forall i :: 0 <= i < |ms| ==> StaysValid(ms[i])) <==> ValuesSurvive(flat)
  {
    hide Combine, Judge, StaysValid, Survives, FacetLosses, Facets, StringSet, JudgeAll, ValuesSurvive;
    var facets := PlanFacets(flat, policy);
    JudgedFacets(flat, facets, policy);
    FacetsSurvive(flat);
    var ms := JudgeAll(flat, facets, policy).value;
    forall i | 0 <= i < |ms|
      ensures StaysValid(ms[i]) <==> forall l :: l in FacetLosses(flat, facets[i]) ==> Survives(l)
    {
      FacetStaysValid(flat, policy, facets[i]);
    }
    if ValuesSurvive(flat) {
      forall i | 0 <= i < |ms|
        ensures StaysValid(ms[i])
      {
        if facets[i] !in Facets(flat) {
          NoLossesElsewhere(flat, facets[i]);
        }
      }
    }
    if forall i :: 0 <= i < |ms| ==> StaysValid(ms[i]) {
      forall f, l | f in Facets(flat) && l in FacetLosses(flat, f)
        ensures Survives(l)
      {
        assert f in facets;
        var i :| 0 <= i < |facets| && facets[i] == f;
        assert StaysValid(ms[i]);
      }
    }
  }

  // ----- The verdict of the second composition ---------------------------------------------

  /** Composing a plan again gives the same plan, unless a declared loss value that passed
      in its raw form no longer does after its round trip; then it is rejected. */
  lemma {:induction false} SecondCompositionIsIdempotent(flat: seq<Mapping>, policy: Policy)
    requires StringSet(policy.required) != {} && ComposeFlat(flat, policy).mappings != []
    ensures var plan := ComposeFlat(flat, policy);
            ComposeFlat(plan.mappings, policy) == if ValuesSurvive(flat) then plan else REJECTED
  {
    hide JudgeAll, PlanFacets, StaysValid, Malformed, ValuesSurvive;
    ComposeAgain(flat, policy);
    StayValidExactly(flat, policy);
  }

  /** The kernel's composition never overturns the adapter's refusal, and confirms its
      approval exactly when every declared loss value stays valid once decoded and encoded
      again. */
  lemma {:induction false} SecondCompositionNeverOverturns(flat: seq<Mapping>, policy: Policy)
    requires StringSet(policy.required) != {}
    ensures ComposeFlat(ComposeFlat(flat, policy).mappings, policy).supported <==>
              ComposeFlat(flat, policy).supported && ValuesSurvive(flat)
  {
    hide JudgeAll, PlanFacets, ValuesSurvive, Malformed;
    if ComposeFlat(flat, policy).mappings != [] {
      SecondCompositionIsIdempotent(flat, policy);
    } else {
      NothingToCompose(policy);
      EmptyPlanIsRefused(flat, policy);
    }
  }

  lemma OneStageFacts(v: Value)
    ensures StagesOf([OneStage(v)], WIRE_REQUEST) == [OneStage(v)]
              && FacetLosses([OneStage(v)], WIRE_REQUEST) == [OneLoss(v)]
    ensures !HasClosedStage([OneStage(v)])
  {
    var flat, m := [OneStage(v)], OneStage(v);
    assert flat[..0] == [];
    OnlyLosses(m);
    assert Unsourced([OneLoss(v)]) == [OneLoss(v)];
  }

  lemma OneRecordIsConsistent(l: Loss)
    ensures Consistent([l])
  {
    assert Fits([l], 0);
  }

  lemma OneStageSupported(v: Value)
    requires ValidValue(v)
    ensures ComposeFlat([OneStage(v)], LENIENT).supported
  {
    hide ComposeFlat, HasStage, HasClosedStage, ValidLoss, ValidValue, Permitted, StringSet, Facets, Consistent,
         StagesOf, FacetLosses;
    var flat := [OneStage(v)];
    SupportedExactly(flat, LENIENT);
    OneLossIsValid(v);
    OneStageFacts(v);
    OneFacetOnly(flat[0]);
    OneRecordIsConsistent(OneLoss(v));
    assert WellDeclared(flat, WIRE_REQUEST) && Carried(flat, LENIENT, WIRE_REQUEST);
  }

  lemma OneFacetOnly(m: Mapping)
    requires m.facet == WIRE_REQUEST
    ensures Facets([m]) + StringSet(LENIENT.required) == {WIRE_REQUEST} && WIRE_REQUEST != UNSET
  {
    assert [m][0].facet == WIRE_REQUEST;
    assert WIRE_REQUEST.text[0] == 'w';
    assert LENIENT.required[0] == WIRE_REQUEST;
  }

  /** The kernel can reject what the adapter supported: a declared value of "null" is
      absent once it was decoded. */
  lemma NullValueIsRejectedTheSecondTime()
    ensures exists flat: seq<Mapping> ::
              ComposeFlat(flat, LENIENT).supported
                && !ComposeFlat(ComposeFlat(flat, LENIENT).mappings, LENIENT).supported
  {
    hide ComposeFlat, StringSet;
    var flat := [OneStage(Json(NullText))];
    OneStageSupported(Json(NullText));
    OneFacetOnly(flat[0]);
    assert WIRE_REQUEST in StringSet(LENIENT.required) by {
      assert LENIENT.required[0] == WIRE_REQUEST;
      InTheSet(LENIENT.required, WIRE_REQUEST);
    }
    assert !Survives(flat[0].losses[0]);
    SecondCompositionNeverOverturns(flat, LENIENT);
  }

  lemma InTheSet(names: seq<Name>, n: Name)
    requires n in names && n != UNSET
    ensures n in StringSet(names)
  {
  }

  /** An early rejection, with no mappings, stays rejected: required facets are never
      empty. */
  lemma EmptyPlanIsRefused(flat: seq<Mapping>, policy: Policy)
    requires StringSet(policy.required) != {} && ComposeFlat(flat, policy).mappings == []
    ensures !ComposeFlat(flat, policy).supported
  {
    hide Combine, Judge;
    var facets := PlanFacets(flat, policy);
    JudgedFacets(flat, facets, policy);
    var f :| f in StringSet(policy.required);
    assert f in facets;
  }
}
