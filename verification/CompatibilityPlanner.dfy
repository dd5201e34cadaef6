/** The planner's loops: they accumulate mappings, losses and the verdict in place and
    stop at the first conflict, and compute exactly `Compose`. */
module CompatibilityPlanner {
  import opened Sums
  import opened Names
  import opened Losses
  import opened Compatibility

  predicate IsPrefix<T(==)>(a: seq<T>, b: seq<T>)
  {
    |a| <= |b| && a == b[..|a|]
  }

  lemma {:induction false} FailedMergeStaysFailed(a: seq<Loss>, b: seq<Loss>)
    requires IsPrefix(a, b) && MergeAll(a).None?
    ensures MergeAll(b).None?
    decreases |b|
  {
    if |a| < |b| {
      var front := b[..|b| - 1];
      assert a == front[..|a|];
      FailedMergeStaysFailed(a, front);
    } else {
      assert b[..|b|] == b;
    }
  }

  lemma {:induction false} LossesOfPrefix(stages: seq<Mapping>, i: nat)
    requires i <= |stages|
    ensures IsPrefix(LossesOf(stages[..i]), LossesOf(stages))
    decreases |stages|
  {
    if i < |stages| {
      var front := stages[..|stages| - 1];
      assert front[..i] == stages[..i];
      LossesOfPrefix(front, i);
    } else {
      assert stages[..i] == stages;
    }
  }

  lemma {:induction false} DegradedLossesPrefix(ms: seq<Mapping>, i: nat)
    requires i <= |ms|
    ensures IsPrefix(DegradedLosses(ms[..i]), DegradedLosses(ms))
    decreases |ms|
  {
    if i < |ms| {
      var front := ms[..|ms| - 1];
      assert front[..i] == ms[..i];
      DegradedLossesPrefix(front, i);
    } else {
      assert ms[..i] == ms;
    }
  }

  lemma {:induction false} JudgeAllPrefix(flat: seq<Mapping>, facets: seq<Name>, policy: Policy, i: nat)
    requires i <= |facets| && JudgeAll(flat, facets, policy).Some?
    ensures |JudgeAll(flat, facets, policy).value| == |facets|
    ensures JudgeAll(flat, facets[..i], policy) == Some(JudgeAll(flat, facets, policy).value[..i])
    decreases |facets|
  {
    hide Combine, Judge;
    JudgedFacets(flat, facets, policy);
    if i < |facets| {
      var front := facets[..|facets| - 1];
      assert front[..i] == facets[..i];
      JudgeAllPrefix(flat, front, policy, i);
      var all := JudgeAll(flat, facets, policy).value;
      assert all[..|front|][..i] == all[..i];
    } else {
      assert facets[..i] == facets;
      var all := JudgeAll(flat, facets, policy).value;
      assert all[..|all|] == all;
    }
  }

  function AnonymousAll(ls: seq<Loss>): seq<Loss>
  {
    seq(|ls|, i requires 0 <= i < |ls| => Anonymous(ls[i]))
  }

  /** Adds one stage's losses to the facet's records; None on an invalid or conflicting
      one. */
  method AddLosses(records: seq<Loss>, ghost before: seq<Loss>, losses: seq<Loss>) returns (result: Option<seq<Loss>>)
    requires MergeAll(before) == Some(records) && AllValid(before)
    ensures var all := before + AnonymousAll(losses);
            && (result.Some? ==> MergeAll(all) == result && AllValid(all))
            && (result.None? ==> MergeAll(all).None? || !AllValid(all))
  {
    hide ValidLoss, AllValid, MergeAll, Merge;
    var current := records;
    ghost var all := before + AnonymousAll(losses);
    assert before == all[..|before|];
    for j := 0 to |losses|
      invariant MergeAll(all[..|before| + j]) == Some(current) && AllValid(all[..|before| + j])
    {
      var l := Anonymous(losses[j]);
      ghost var part := all[..|before| + j];
      assert all[..|before| + j + 1] == part + [l];
      ValidityIgnoresSources(losses[j]);
      ValidOneMore(part, l);
      if !ValidLoss(losses[j]) {
        if AllValid(all) {
          ValidPrefix(part + [l], all);
        }
        return None;
      }
      var merged := MergeLossRecord(current, l);
      MergeOneMore(part, l);
      if merged.None? {
        FailedMergeStaysFailed(part + [l], all);
        return None;
      }
      current := merged.value;
    }
    assert all[..|before| + |losses|] == all;
    result := Some(current);
  }

  lemma ValidOneMore(ls: seq<Loss>, l: Loss)
    ensures AllValid(ls + [l]) <==> AllValid(ls) && ValidLoss(l)
  {
    hide ValidLoss;
    var longer := ls + [l];
    assert forall i :: 0 <= i < |ls| ==> longer[i] == ls[i];
    assert longer[|ls|] == l;
  }

  lemma ValidPrefix(a: seq<Loss>, b: seq<Loss>)
    requires IsPrefix(a, b) && AllValid(b)
    ensures AllValid(a)
  {
    hide ValidLoss;
    assert forall i :: 0 <= i < |a| ==> a[i] == b[i];
  }

  lemma MergeOneMore(ls: seq<Loss>, l: Loss)
    requires MergeAll(ls).Some?
    ensures MergeAll(ls + [l]) == Merge(MergeAll(ls).value, l)
  {
    assert (ls + [l])[..|ls|] == ls;
  }

  lemma ValidityIgnoresSources(l: Loss)
    ensures ValidLoss(Anonymous(l)) <==> ValidLoss(l)
  {
  }

  /** Composes one facet's stages. */
  method CombineFacet(ghost flat: seq<Mapping>, facet: Name, reported: seq<Mapping>) returns (combined: Option<Mapping>)
    requires reported == StagesOf(flat, facet)
    ensures combined == Combine(flat, facet)
  {
    hide AllValid, StagesOf, AppendUnique, Merge;
    if reported == [] {
      return Some(Mapping(facet, [], Unknown, []));
    }
    var paths, records, d := [], [], Preserved;
    assert LossesOf([]) == [] && AllValid([]) by { NothingIsValid(); }
    for i := 0 to |reported|
      invariant paths == PathsOf(reported[..i]) && d == DispositionOf(reported[..i])
      invariant MergeAll(LossesOf(reported[..i])) == Some(records) && AllValid(LossesOf(reported[..i]))
    {
      assert reported[..i + 1][..i] == reported[..i];
      ghost var before := LossesOf(reported[..i]);
      assert LossesOf(reported[..i + 1]) == before + AnonymousAll(reported[i].losses);
      paths := AppendUniqueNames(paths, reported[i].paths);
      var added := AddLosses(records, before, reported[i].losses);
      if added.None? {
        LossesOfPrefix(reported, i + 1);
        Refused(reported, i + 1);
        return None;
      }
      records := added.value;
      match reported[i].disposition {
        case Unsupported => d := Unsupported;
        case Unknown => d := Unknown;
        case Degraded => if d != Unsupported && d != Unknown { d := Degraded; }
        case Translated => if d == Preserved { d := Translated; }
        case _ =>
      }
    }
    assert reported[..|reported|] == reported;
    if records != [] && d != Unknown && d != Unsupported {
      d := Degraded;
    }
    if d == Degraded && records == [] {
      return None;
    }
    combined := Some(Mapping(facet, paths, d, records));
  }

  lemma NothingIsValid()
    ensures AllValid([])
  {
  }

  lemma Refused(stages: seq<Mapping>, i: nat)
    requires i <= |stages| && IsPrefix(LossesOf(stages[..i]), LossesOf(stages))
    requires MergeAll(LossesOf(stages[..i])).None? || !AllValid(LossesOf(stages[..i]))
    ensures MergeAll(LossesOf(stages)).None? || !AllValid(LossesOf(stages))
  {
    hide AllValid, LossesOf;
    var part, all := LossesOf(stages[..i]), LossesOf(stages);
    if MergeAll(part).None? {
      FailedMergeStaysFailed(part, all);
    } else if AllValid(all) {
      ValidPrefix(part, all);
    }
  }

  /** Applies the grants, the denials and the ceiling to one facet. */
  method JudgeFacet(policy: Policy, m: Mapping) returns (judged: Mapping)
    ensures judged == Judge(policy, m)
  {
    hide Permitted;
    var losses, d := m.losses, m.disposition;
    for i := 0 to |losses|
      invariant |losses| == |m.losses|
      invariant forall k :: 0 <= k < i ==> losses[k] == Grant(policy, m.losses[k])
      invariant forall k :: i <= k < |losses| ==> losses[k] == m.losses[k]
      invariant d == if forall k :: 0 <= k < i ==> Permitted(policy, m.losses[k].id) then m.disposition else Unsupported
    {
      if !Permitted(policy, losses[i].id) {
        d := Unsupported;
      } else {
        var sources := AppendUniqueNames(losses[i].sources, SourcesOf(policy, losses[i].id));
        losses := losses[i := losses[i].(sources := sources)];
      }
    }
    assert losses == Granted(policy, m.losses);
    judged := m.(losses := losses, disposition := d);
  }

  /** Groups the reports by facet, refusing malformed mappings. */
  method GroupByFacet(reports: seq<seq<Mapping>>) returns (byFacet: Option<map<Name, seq<Mapping>>>)
    ensures var flat := Flatten(reports);
            && (byFacet.Some? <==> WellFormed(flat))
            && (byFacet.Some? ==>
                 byFacet.value.Keys == Facets(flat)
                   && forall f :: f in byFacet.value ==> byFacet.value[f] == StagesOf(flat, f))
  {
    hide Malformed;
    var groups: map<Name, seq<Mapping>> := map[];
    for i := 0 to |reports|
      invariant Grouped(groups, Flatten(reports[..i])) && WellFormed(Flatten(reports[..i]))
    {
      ghost var before := Flatten(reports[..i]);
      assert reports[..i + 1][..i] == reports[..i];
      FlattenPrefix(reports, i + 1);
      assert Flatten(reports[..i + 1]) == before + reports[i];
      assert before + reports[i][..0] == before;
      for j := 0 to |reports[i]|
        invariant Grouped(groups, before + reports[i][..j]) && WellFormed(before + reports[i][..j])
      {
        var m := reports[i][j];
        assert before + reports[i][..j + 1] == before + reports[i][..j] + [m];
        if Malformed(m) {
          MalformedInside(before, reports[i], j, Flatten(reports));
          return None;
        }
        AddToGroup(groups, before + reports[i][..j], m);
        groups := groups[m.facet := (if m.facet in groups then groups[m.facet] else []) + [m]];
      }
      assert reports[i][..|reports[i]|] == reports[i];
    }
    assert reports[..|reports|] == reports;
    byFacet := Some(groups);
  }

  ghost predicate Grouped(groups: map<Name, seq<Mapping>>, flat: seq<Mapping>)
  {
    groups.Keys == Facets(flat) && forall f :: f in groups ==> groups[f] == StagesOf(flat, f)
  }

  lemma MalformedInside(before: seq<Mapping>, report: seq<Mapping>, j: nat, flat: seq<Mapping>)
    requires j < |report| && IsPrefix(before + report, flat) && Malformed(report[j])
    ensures !WellFormed(flat)
  {
    assert flat[|before| + j] == (before + report)[|before| + j];
  }

  lemma {:induction false} FlattenPrefix(reports: seq<seq<Mapping>>, i: nat)
    requires i <= |reports|
    ensures IsPrefix(Flatten(reports[..i]), Flatten(reports))
    decreases |reports|
  {
    if i < |reports| {
      assert reports[..|reports| - 1][..i] == reports[..i];
      FlattenPrefix(reports[..|reports| - 1], i);
    } else {
      assert reports[..i] == reports;
    }
  }

  lemma {:induction false} NotReported(flat: seq<Mapping>, facet: Name)
    requires facet !in Facets(flat)
    ensures StagesOf(flat, facet) == []
    decreases |flat|
  {
    if flat != [] {
      var front := flat[..|flat| - 1];
      assert flat[|flat| - 1].facet in Facets(flat);
      assert Facets(front) <= Facets(flat);
      NotReported(front, facet);
    }
  }

  lemma AddToGroup(groups: map<Name, seq<Mapping>>, flat: seq<Mapping>, m: Mapping)
    requires Grouped(groups, flat) && WellFormed(flat) && !Malformed(m)
    ensures Grouped(groups[m.facet := (if m.facet in groups then groups[m.facet] else []) + [m]], flat + [m])
    ensures WellFormed(flat + [m])
  {
    hide Malformed;
    var longer := flat + [m];
    assert longer[..|flat|] == flat;
    if m.facet !in groups {
      NotReported(flat, m.facet);
    }
    forall f
      ensures f in Facets(longer) <==> f in Facets(flat) || f == m.facet
    {
      if f in Facets(flat) {
        var i :| 0 <= i < |flat| && flat[i].facet == f;
        assert longer[i].facet == f;
      }
      if f == m.facet {
        assert longer[|flat|].facet == f;
      }
    }
  }

  /** The plan's loop state after some facets. */
  ghost predicate Progress(flat: seq<Mapping>, policy: Policy, facets: seq<Name>, mappings: seq<Mapping>,
                           losses: seq<Loss>, supported: bool, fidelity: Fidelity)
  {
    && JudgeAll(flat, facets, policy) == Some(mappings)
    && MergeAll(DegradedLosses(mappings)) == Some(losses)
    && supported == Supports(policy, mappings) && fidelity == FidelityOf(mappings)
  }

  method ComposeCompatibilityPlan(reports: seq<seq<Mapping>>, policy: Policy) returns (plan: Plan)
    ensures plan == Compose(reports, policy)
  {
    hide Malformed, StringSet, JudgeAll, StagesOf, Progress, Finish;
    ghost var flat := Flatten(reports);
    var groups := GroupByFacet(reports);
    if groups.None? {
      return REJECTED;
    }
    var facets := Sorted(groups.value.Keys + StringSet(policy.required));
    assert facets == PlanFacets(flat, policy);
    plan := ComposeFacets(flat, groups.value, facets, policy);
  }

  /** The walk over the sorted facets. */
  method ComposeFacets(ghost flat: seq<Mapping>, byFacet: map<Name, seq<Mapping>>, facets: seq<Name>, policy: Policy)
    returns (plan: Plan)
    requires Grouped(byFacet, flat)
    ensures plan == match JudgeAll(flat, facets, policy)
                    case None => REJECTED
                    case Some(mappings) => Finish(policy, mappings)
  {
    hide JudgeAll, StagesOf, MergeAll, DegradedLosses, Supports, FidelityOf, Combine, Judge, Blocks, Grouped, Progress;
    var mappings, losses, supported, fidelity := [], [], true, NativeFidelity;
    NothingYet(flat, policy);
    for k := 0 to |facets|
      invariant Progress(flat, policy, facets[..k], mappings, losses, supported, fidelity)
    {
      assert facets[..k + 1] == facets[..k] + [facets[k]];
      StagesFound(byFacet, flat, facets[k]);
      var combined := CombineFacet(flat, facets[k], if facets[k] in byFacet then byFacet[facets[k]] else []);
      if combined.None? {
        JudgeOneMore(flat, policy, facets[..k], facets[k], mappings, losses, supported, fidelity);
        StopsEarly(flat, facets, policy, k + 1);
        return REJECTED;
      }
      var judged := JudgeFacet(policy, combined.value);
      JudgeOneMore(flat, policy, facets[..k], facets[k], mappings, losses, supported, fidelity);
      if Blocks(policy, judged) {
        supported := false;
      }
      var merged := Some(losses);
      if judged.disposition == Degraded {
        fidelity := LossyFidelity;
        merged := MergeMore(losses, DegradedLosses(mappings), judged.losses);
      } else if judged.disposition == Translated && fidelity == NativeFidelity {
        fidelity := TranslatedFidelity;
      }
      mappings := mappings + [judged];
      if merged.None? {
        ConflictsEarly(flat, facets, policy, k + 1, mappings);
        return REJECTED;
      }
      losses := merged.value;
      assert Progress(flat, policy, facets[..k + 1], mappings, losses, supported, fidelity) by {
        ProgressMade(flat, policy, facets[..k + 1], mappings, losses, supported, fidelity);
      }
    }
    assert facets[..|facets|] == facets;
    ProgressDone(flat, policy, facets, mappings, losses, supported, fidelity);
    plan := Plan(supported, if supported then fidelity else UnsupportedFidelity, mappings, losses);
  }

  lemma StagesFound(byFacet: map<Name, seq<Mapping>>, flat: seq<Mapping>, facet: Name)
    requires Grouped(byFacet, flat)
    ensures (if facet in byFacet then byFacet[facet] else []) == StagesOf(flat, facet)
  {
    if facet !in byFacet {
      NotReported(flat, facet);
    }
  }

  lemma NothingYet(flat: seq<Mapping>, policy: Policy)
    ensures forall facets: seq<Name> :: Progress(flat, policy, facets[..0], [], [], true, NativeFidelity)
  {
  }

  lemma ProgressMade(flat: seq<Mapping>, policy: Policy, facets: seq<Name>, mappings: seq<Mapping>, losses: seq<Loss>,
                     supported: bool, fidelity: Fidelity)
    requires JudgeAll(flat, facets, policy) == Some(mappings) && MergeAll(DegradedLosses(mappings)) == Some(losses)
    requires supported == Supports(policy, mappings) && fidelity == FidelityOf(mappings)
    ensures Progress(flat, policy, facets, mappings, losses, supported, fidelity)
  {
  }

  lemma ProgressDone(flat: seq<Mapping>, policy: Policy, facets: seq<Name>, mappings: seq<Mapping>, losses: seq<Loss>,
                     supported: bool, fidelity: Fidelity)
    requires Progress(flat, policy, facets, mappings, losses, supported, fidelity)
    ensures JudgeAll(flat, facets, policy) == Some(mappings)
    ensures Finish(policy, mappings) ==
              Plan(supported, if supported then fidelity else UnsupportedFidelity, mappings, losses)
  {
  }

  /** One more facet, in terms of the plan so far. */
  lemma JudgeOneMore(flat: seq<Mapping>, policy: Policy, facets: seq<Name>, facet: Name, ms: seq<Mapping>,
                     losses: seq<Loss>, supported: bool, fidelity: Fidelity)
    requires Progress(flat, policy, facets, ms, losses, supported, fidelity)
    ensures MergeAll(DegradedLosses(ms)) == Some(losses)
    ensures var combined := Combine(flat, facet);
            JudgeAll(flat, facets + [facet], policy) == if combined.None? then None
                                                        else Some(ms + [Judge(policy, combined.value)])
    ensures Combine(flat, facet).Some? ==>
              var m := Judge(policy, Combine(flat, facet).value);
              && DegradedLosses(ms + [m]) ==
                 (if m.disposition == Degraded then DegradedLosses(ms) + m.losses else DegradedLosses(ms))
              && Supports(policy, ms + [m]) == (supported && !Blocks(policy, m))
              && FidelityOf(ms + [m]) == if m.disposition == Degraded then LossyFidelity
                                         else if m.disposition == Translated && fidelity == NativeFidelity
                                              then TranslatedFidelity
                                         else fidelity
  {
    hide Combine, Judge, Blocks;
    assert (facets + [facet])[..|facets|] == facets;
    if Combine(flat, facet).Some? {
      var m := Judge(policy, Combine(flat, facet).value);
      assert (ms + [m])[..|ms|] == ms;
      OneMoreMapping(policy, ms, m);
      assert DegradedLosses(ms) + [] == DegradedLosses(ms);
    }
  }

  method MergeMore(losses: seq<Loss>, ghost before: seq<Loss>, more: seq<Loss>) returns (merged: Option<seq<Loss>>)
    requires MergeAll(before) == Some(losses)
    ensures merged == MergeAll(before + more)
  {
    hide Merge;
    var current := losses;
    ghost var all := before + more;
    assert before == all[..|before|];
    for j := 0 to |more|
      invariant MergeAll(all[..|before| + j]) == Some(current)
    {
      ghost var longer := all[..|before| + j + 1];
      assert longer[..|before| + j] == all[..|before| + j] && longer[|before| + j] == more[j];
      merged := MergeLossRecord(current, more[j]);
      if merged.None? {
        FailedMergeStaysFailed(longer, all);
        return;
      }
      current := merged.value;
    }
    assert all[..|before| + |more|] == all;
    merged := Some(current);
  }

  lemma OneMoreMapping(policy: Policy, ms: seq<Mapping>, m: Mapping)
    ensures Supports(policy, ms + [m]) == (Supports(policy, ms) && !Blocks(policy, m))
    ensures FidelityOf(ms + [m]) == if m.disposition == Degraded then LossyFidelity
                                    else if m.disposition == Translated && FidelityOf(ms) == NativeFidelity
                                         then TranslatedFidelity
                                    else FidelityOf(ms)
  {
    hide Blocks;
    var longer := ms + [m];
    assert forall i :: 0 <= i < |ms| ==> longer[i] == ms[i];
    assert longer[|ms|] == m;
  }

  lemma StopsEarly(flat: seq<Mapping>, facets: seq<Name>, policy: Policy, k: nat)
    requires k <= |facets| && JudgeAll(flat, facets[..k], policy).None?
    ensures JudgeAll(flat, facets, policy).None?
  {
    if JudgeAll(flat, facets, policy).Some? {
      JudgeAllPrefix(flat, facets, policy, k);
    }
  }

  lemma ConflictsEarly(flat: seq<Mapping>, facets: seq<Name>, policy: Policy, k: nat, ms: seq<Mapping>)
    requires k <= |facets| && JudgeAll(flat, facets[..k], policy) == Some(ms) && MergeAll(DegradedLosses(ms)).None?
    ensures JudgeAll(flat, facets, policy).Some? ==>
              MergeAll(DegradedLosses(JudgeAll(flat, facets, policy).value)).None?
  {
    hide Combine, Judge;
    if JudgeAll(flat, facets, policy).Some? {
      JudgeAllPrefix(flat, facets, policy, k);
      var all := JudgeAll(flat, facets, policy).value;
      DegradedLossesPrefix(all, k);
      FailedMergeStaysFailed(DegradedLosses(ms), DegradedLosses(all));
    }
  }
}
