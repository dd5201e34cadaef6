/** Around the planner: how loss policies accumulate down the model path, which reports a
    composed adapter hands to the planner, and what the kernel's second composition makes
    of the adapter's plan. */
module CompatibilityAdapter {
  import opened Sums
  import opened Names
  import opened Losses
  import opened Compatibility
  import opened CompatibilityVerdict
  import opened CompatibilityTwice

  // ----- Loss policies along a path ------------------------------------------------------

  datatype LossPolicy = LossPolicy(allow: seq<Name>, deny: seq<Name>)

  function UniqueSorted(values: seq<Name>): seq<Name>
  {
    Sorted(StringSet(values))
  }

  function AddSources(sources: map<Name, seq<Name>>, source: Name, ids: seq<Name>): map<Name, seq<Name>>
  {
    map id | id in sources.Keys + (set i | 0 <= i < |ids| :: ids[i]) ::
      UniqueSorted(AppendUnique(if id in sources then sources[id] else [], if id in ids then [source] else []))
  }

  function AddLossPolicy(policy: Policy, source: Name, node: LossPolicy): Policy
  {
    policy.(allowed := UniqueSorted(AppendUnique(policy.allowed, node.allow)),
            denied := UniqueSorted(AppendUnique(policy.denied, node.deny)),
            sources := AddSources(policy.sources, source, node.allow))
  }

  function AddPath(policy: Policy, path: seq<(Name, LossPolicy)>): Policy
  {
    if path == [] then policy
    else AddLossPolicy(AddPath(policy, path[..|path| - 1]), path[|path| - 1].0, path[|path| - 1].1)
  }

  lemma AppendedSet(a: seq<Name>, b: seq<Name>)
    ensures StringSet(UniqueSorted(AppendUnique(a, b))) == StringSet(a) + StringSet(b)
  {
    forall x
      ensures x in StringSet(UniqueSorted(AppendUnique(a, b))) <==> x in StringSet(a) + StringSet(b)
    {
      AppendUniqueAddsExactly(a, b, x);
    }
  }

  ghost predicate AllowedOn(policy: Policy, path: seq<(Name, LossPolicy)>, id: Name)
  {
    id in StringSet(policy.allowed) || exists i :: 0 <= i < |path| && id in StringSet(path[i].1.allow)
  }

  ghost predicate DeniedOn(policy: Policy, path: seq<(Name, LossPolicy)>, id: Name)
  {
    id in StringSet(policy.denied) || exists i :: 0 <= i < |path| && id in StringSet(path[i].1.deny)
  }

  /** Grants accumulate down the path; a denial anywhere on it, or a server ceiling, can
      never be granted back. */
  lemma {:induction false} DenialsOnThePathAlwaysWin(policy: Policy, path: seq<(Name, LossPolicy)>, id: Name)
    ensures var p := AddPath(policy, path);
            && (id in StringSet(p.allowed) <==> AllowedOn(policy, path, id))
            && (id in StringSet(p.denied) <==> DeniedOn(policy, path, id))
            && (Permitted(p, id) <==>
                AllowedOn(policy, path, id) && !DeniedOn(policy, path, id) && id !in StringSet(policy.ceilingDeny)
                && (policy.allowOnly ==> id in StringSet(policy.ceilingAllow)))
            && p.required == policy.required
    decreases |path|
  {
    hide StringSet, AppendUnique, UniqueSorted;
    if path != [] {
      var front := path[..|path| - 1];
      DenialsOnThePathAlwaysWin(policy, front, id);
      KeepsCeiling(policy, front);
      var p := AddPath(policy, front);
      AppendedSet(p.allowed, path[|path| - 1].1.allow);
      AppendedSet(p.denied, path[|path| - 1].1.deny);
      assert forall i :: 0 <= i < |front| ==> front[i] == path[i];
    }
  }

  lemma {:induction false} KeepsCeiling(policy: Policy, path: seq<(Name, LossPolicy)>)
    ensures var p := AddPath(policy, path);
            p.allowOnly == policy.allowOnly && p.ceilingAllow == policy.ceilingAllow
              && p.ceilingDeny == policy.ceilingDeny
    decreases |path|
  {
    if path != [] {
      KeepsCeiling(policy, path[..|path| - 1]);
    }
  }

  // ----- The composed adapter's reports -----------------------------------------------------

  /** What a renderer answers; `mappings` may spell out its own facets. */
  datatype Decision = Decision(supported: bool, fidelity: Fidelity, losses: seq<Loss>, mappings: seq<Mapping>)

  const WIRE_RESPONSE := Name("wire.response")

  function EventFacet(event: Name): Name
  {
    Name("response.event." + event.text)
  }

  const RENDERED := Name("response.events")
  const DECODED := Name("upstream.response.events")

  function EventMappings(events: seq<Name>, path: Name, d: Disposition): seq<Mapping>
  {
    seq(|events|, i requires 0 <= i < |events| => Mapping(EventFacet(events[i]), [path], d, []))
  }

  /** The members of `events` outside `known`, in order. */
  function Missing(events: seq<Name>, known: set<Name>): seq<Name>
  {
    if events == [] then []
    else
      var front := Missing(events[..|events| - 1], known);
      if events[|events| - 1] in known then front else front + [events[|events| - 1]]
  }

  function NameSet(names: seq<Name>): set<Name>
  {
    set x | x in names
  }

  function RendererDisposition(d: Decision): Disposition
  {
    if d.fidelity == LossyFidelity || d.losses != [] then Degraded
    else if d.fidelity == NativeFidelity then Preserved
    else Translated
  }

  function FacetsDeclared(report: seq<Mapping>, events: seq<Name>): set<Name>
  {
    set e | e in events && EventFacet(e) in Facets(report)
  }

  function ClonedLosses(ls: seq<Loss>): seq<Loss>
  {
    seq(|ls|, i requires 0 <= i < |ls| => CloneLoss(ls[i]))
  }

  /** What a renderer says of itself, spelled out or in summary. */
  function OwnReport(d: Decision): seq<Mapping>
  {
    if d.mappings != [] then d.mappings
    else [Mapping(WIRE_RESPONSE, [Name("response")], RendererDisposition(d), ClonedLosses(d.losses))]
  }

  function RendererReport(d: Decision, required: seq<Name>): seq<Mapping>
  {
    if !d.supported then [Mapping(WIRE_RESPONSE, [Name("response")], Unsupported, [])]
      + EventMappings(required, RENDERED, Unsupported)
    else
      OwnReport(d) + EventMappings(Missing(required, FacetsDeclared(OwnReport(d), required)), RENDERED, Unknown)
  }

  function DecoderReport(provided: seq<Name>, required: seq<Name>): seq<Mapping>
  {
    EventMappings(UniqueSorted(provided), DECODED, Preserved)
      + EventMappings(Missing(required, NameSet(provided)), DECODED, Unsupported)
  }

  function Requiring(policy: Policy, more: seq<Name>): Policy
  {
    policy.(required := policy.required + more)
  }

  function EventFacets(events: seq<Name>): seq<Name>
  {
    seq(|events|, i requires 0 <= i < |events| => EventFacet(events[i]))
  }

  /** What a composed adapter plans; `renderer` is None when no client renderer is
      registered for the requested format. */
  function AdapterPlan(request: seq<Mapping>, renderer: Option<Decision>, provided: seq<Name>, required: seq<Name>,
                       policy: Policy): Plan
  {
    match renderer
    case None =>
      Compose([request, [Mapping(WIRE_RESPONSE, [Name("response")], Unsupported, [])]],
        Requiring(policy, [WIRE_RESPONSE]))
    case Some(d) =>
      Compose([request, DecoderReport(provided, required), RendererReport(d, required)],
              Requiring(policy, [WIRE_RESPONSE] + EventFacets(required)))
  }

  lemma FlattenTwo(a: seq<Mapping>, b: seq<Mapping>)
    ensures Flatten([a, b]) == a + b
  {
    assert [a, b][..1] == [a] && [a][..0] == [];
    assert Flatten([a]) == a;
  }

  lemma FlattenThree(a: seq<Mapping>, b: seq<Mapping>, c: seq<Mapping>)
    ensures Flatten([a, b, c]) == a + b + c
  {
    assert [a, b, c][..2] == [a, b];
    FlattenTwo(a, b);
  }

  /** A required facet with a stage that fails closed is never supported. */
  lemma ClosedStageBlocks(flat: seq<Mapping>, policy: Policy, m: Mapping)
    requires m in flat && FailsClosed(m.disposition) && m.facet in StringSet(policy.required)
    ensures !ComposeFlat(flat, policy).supported
  {
    hide ComposeFlat, StringSet, FacetLosses, WellDeclared, Permitted;
    SupportedExactly(flat, policy);
    StagesAreTheFacets(flat, m.facet, m);
    var stages := StagesOf(flat, m.facet);
    var i :| 0 <= i < |stages| && stages[i] == m;
    assert HasClosedStage(stages);
    assert !Carried(flat, policy, m.facet);
  }

  lemma {:induction false} MissingAre(events: seq<Name>, known: set<Name>, e: Name)
    ensures e in Missing(events, known) <==> e in events && e !in known
    decreases |events|
  {
    if events != [] {
      MissingAre(events[..|events| - 1], known, e);
      assert events == events[..|events| - 1] + [events[|events| - 1]];
    }
  }

  lemma EventMapped(events: seq<Name>, path: Name, d: Disposition, e: Name)
    requires e in events
    ensures Mapping(EventFacet(e), [path], d, []) in EventMappings(events, path, d)
  {
    var i :| 0 <= i < |events| && events[i] == e;
    assert EventMappings(events, path, d)[i] == Mapping(EventFacet(e), [path], d, []);
  }

  lemma EventIsRequired(policy: Policy, required: seq<Name>, e: Name)
    requires e in required
    ensures EventFacet(e) in StringSet(Requiring(policy, [WIRE_RESPONSE] + EventFacets(required)).required)
  {
    var i :| 0 <= i < |required| && required[i] == e;
    assert EventFacets(required)[i] == EventFacet(e);
    var all := policy.required + ([WIRE_RESPONSE] + EventFacets(required));
    assert all[|policy.required| + 1 + i] == EventFacet(e);
    assert EventFacet(e).text[0] == 'r';
  }

  /** An adapter supports a request only if its renderer exists and accepts it, and every
      response event the client needs is declared by the decoder and by the renderer. */
  lemma {:induction false} SupportNeedsDecoderAndRenderer(request: seq<Mapping>, renderer: Option<Decision>,
                                                          provided: seq<Name>, required: seq<Name>, policy: Policy,
                                                          e: Name)
    requires AdapterPlan(request, renderer, provided, required, policy).supported
    ensures renderer.Some? && renderer.value.supported
    ensures e in required ==>
              e in provided && EventFacet(e) in Facets(renderer.value.mappings)
  {
    hide ComposeFlat, StringSet, EventFacet, Facets;
    var wire := Mapping(WIRE_RESPONSE, [Name("response")], Unsupported, []);
    WireIsRequired(policy, required);
    if renderer.None? {
      FlattenTwo(request, [wire]);
      assert wire in request + [wire];
      ClosedStageBlocks(request + [wire], Requiring(policy, [WIRE_RESPONSE]), wire);
    } else {
      var d := renderer.value;
      var all := Requiring(policy, [WIRE_RESPONSE] + EventFacets(required));
      var flat := request + DecoderReport(provided, required) + RendererReport(d, required);
      FlattenThree(request, DecoderReport(provided, required), RendererReport(d, required));
      if !d.supported {
        assert wire in RendererReport(d, required);
        ClosedStageBlocks(flat, all, wire);
      }
      if e in required && e !in provided {
        UndeclaredByDecoder(flat, all, request, provided, required, RendererReport(d, required), e);
      }
      if e in required && d.supported && EventFacet(e) !in Facets(d.mappings) {
        UndeclaredByRenderer(flat, all, request + DecoderReport(provided, required), d, required, e);
      }
    }
  }

  lemma WireIsRequired(policy: Policy, required: seq<Name>)
    ensures WIRE_RESPONSE in StringSet(Requiring(policy, [WIRE_RESPONSE]).required)
    ensures WIRE_RESPONSE in StringSet(Requiring(policy, [WIRE_RESPONSE] + EventFacets(required)).required)
  {
    assert WIRE_RESPONSE.text[0] == 'w';
    assert (policy.required + ([WIRE_RESPONSE] + EventFacets(required)))[|policy.required|] == WIRE_RESPONSE;
    assert (policy.required + [WIRE_RESPONSE])[|policy.required|] == WIRE_RESPONSE;
  }

  lemma UndeclaredByDecoder(flat: seq<Mapping>, all: Policy, request: seq<Mapping>, provided: seq<Name>,
                            required: seq<Name>, rest: seq<Mapping>, e: Name)
    requires flat == request + DecoderReport(provided, required) + rest && e in required && e !in provided
    requires EventFacet(e) in StringSet(all.required)
               || (exists p :: all == Requiring(p, [WIRE_RESPONSE] + EventFacets(required)))
    ensures !ComposeFlat(flat, all).supported
  {
    hide ComposeFlat, EventFacet, StringSet;
    if p :| all == Requiring(p, [WIRE_RESPONSE] + EventFacets(required)) {
      EventIsRequired(p, required, e);
    }
    MissingAre(required, NameSet(provided), e);
    EventMapped(Missing(required, NameSet(provided)), DECODED, Unsupported, e);
    var m := Mapping(EventFacet(e), [DECODED], Unsupported, []);
    assert m in DecoderReport(provided, required);
    ClosedStageBlocks(flat, all, m);
  }

  /** A summary is about the wire, not about any event. */
  lemma NotDeclaredByDefault(d: Decision, e: Name)
    requires EventFacet(e) !in Facets(d.mappings)
    ensures EventFacet(e) !in Facets(OwnReport(d))
  {
    assert EventFacet(e).text[0] == 'r' && WIRE_RESPONSE.text[0] == 'w';
  }

  lemma UndeclaredByRenderer(flat: seq<Mapping>, all: Policy, before: seq<Mapping>, d: Decision, required: seq<Name>,
                             e: Name)
    requires flat == before + RendererReport(d, required) && e in required
    requires d.supported && EventFacet(e) !in Facets(d.mappings)
    requires exists p :: all == Requiring(p, [WIRE_RESPONSE] + EventFacets(required))
    ensures !ComposeFlat(flat, all).supported
  {
    hide ComposeFlat, EventFacet, StringSet, Facets;
    var p :| all == Requiring(p, [WIRE_RESPONSE] + EventFacets(required));
    EventIsRequired(p, required, e);
    NotDeclaredByDefault(d, e);
    var known := FacetsDeclared(OwnReport(d), required);
    MissingAre(required, known, e);
    EventMapped(Missing(required, known), RENDERED, Unknown, e);
    var m := Mapping(EventFacet(e), [RENDERED], Unknown, []);
    assert m in RendererReport(d, required);
    ClosedStageBlocks(flat, all, m);
  }

  // ----- The kernel's composition ------------------------------------------------------------

  function KernelPlan(plan: Plan, policy: Policy): Plan
  {
    Compose([plan.mappings], Requiring(policy, [WIRE_RESPONSE]))
  }

  lemma FlattenOne(a: seq<Mapping>)
    ensures Flatten([a]) == a
  {
    assert [a][..0] == [];
  }

  /** Only the set of required facets matters. */
  lemma RequiredListsDoNotMatter(flat: seq<Mapping>, a: Policy, b: Policy)
    requires b == a.(required := b.required) && StringSet(a.required) == StringSet(b.required)
    ensures ComposeFlat(flat, a) == ComposeFlat(flat, b)
  {
    hide Combine, StringSet, MergeAll, DegradedLosses, FidelityOf;
    forall m
      ensures Judge(a, m) == Judge(b, m) && Blocks(a, m) == Blocks(b, m)
    {
      JudgeIgnoresRequired(a, b, m);
    }
    JudgeAllIgnoresRequired(flat, PlanFacets(flat, a), a, b);
  }

  lemma JudgeIgnoresRequired(a: Policy, b: Policy, m: Mapping)
    requires b == a.(required := b.required)
    ensures Judge(a, m) == Judge(b, m)
  {
    assert forall l :: Grant(a, l) == Grant(b, l);
    assert Granted(a, m.losses) == Granted(b, m.losses);
  }

  lemma {:induction false} JudgeAllIgnoresRequired(flat: seq<Mapping>, facets: seq<Name>, a: Policy, b: Policy)
    requires b == a.(required := b.required)
    ensures JudgeAll(flat, facets, a) == JudgeAll(flat, facets, b)
    decreases |facets|
  {
    hide Combine, Judge;
    if facets != [] {
      var last := facets[|facets| - 1];
      JudgeAllIgnoresRequired(flat, facets[..|facets| - 1], a, b);
      if Combine(flat, last).Some? {
        JudgeIgnoresRequired(a, b, Combine(flat, last).value);
      }
    }
  }

  lemma ClonedValueSurvives(l: Loss)
    requires ValidLoss(CloneLoss(l))
    ensures Survives(CloneLoss(l))
  {
  }

  lemma DeclaredLossIsValid(flat: seq<Mapping>, policy: Policy, i: nat, j: nat)
    requires ComposeFlat(flat, policy).supported && i < |flat| && j < |flat[i].losses|
    ensures ValidLoss(flat[i].losses[j])
  {
    hide ComposeFlat, Facets, StringSet, FacetLosses, Carried, Consistent, HasStage, HasClosedStage, ValidLoss;
    SupportedExactly(flat, policy);
    DeclaredLoss(flat, i, j);
    assert flat[i].facet in Facets(flat) by {
      FacetOf(flat, i);
    }
    assert WellDeclared(flat, flat[i].facet);
    SourcesDoNotMatter(flat[i].losses[j]);
  }

  lemma FacetOf(flat: seq<Mapping>, i: nat)
    requires i < |flat|
    ensures flat[i].facet in Facets(flat)
  {
  }

  lemma SurvivalSplits(a: seq<Mapping>, b: seq<Mapping>)
    ensures ValuesSurvive(a + b) <==> ValuesSurvive(a) && ValuesSurvive(b)
  {
    hide Survives;
    if ValuesSurvive(a + b) {
      assert forall i :: 0 <= i < |a| ==> (a + b)[i] == a[i];
      assert forall i :: 0 <= i < |b| ==> (a + b)[|a| + i] == b[i];
    }
  }

  /** The losses a caller can look at: the request's, and those a renderer spells out. */
  ghost predicate InputsSurvive(request: seq<Mapping>, renderer: Option<Decision>)
  {
    ValuesSurvive(request) && (renderer.Some? ==> ValuesSurvive(renderer.value.mappings))
  }

  /** In a supported plan nothing else can fail the second time: a renderer's summary holds
      values that were decoded already, and the rest declares no losses. */
  lemma OnlyInputsMatter(request: seq<Mapping>, renderer: Option<Decision>, provided: seq<Name>, required: seq<Name>,
                         policy: Policy, flat: seq<Mapping>)
    requires AdapterPlan(request, renderer, provided, required, policy).supported
    requires flat == AdapterReports(request, renderer, provided, required)
    requires exists adapter :: AdapterPlan(request, renderer, provided, required, policy) == ComposeFlat(flat, adapter)
    ensures ValuesSurvive(flat) <==> InputsSurvive(request, renderer)
  {
    hide ComposeFlat, Survives, ValuesSurvive;
    var adapter :| AdapterPlan(request, renderer, provided, required, policy) == ComposeFlat(flat, adapter);
    SupportNeedsDecoderAndRenderer(request, renderer, provided, required, policy, WIRE_RESPONSE);
    var d := renderer.value;
    var more := EventMappings(Missing(required, FacetsDeclared(OwnReport(d), required)), RENDERED, Unknown);
    SurvivalSplits(request + DecoderReport(provided, required), RendererReport(d, required));
    SurvivalSplits(request, DecoderReport(provided, required));
    SurvivalSplits(OwnReport(d), more);
    LosslessSurvive(DecoderReport(provided, required));
    LosslessSurvive(more);
    if d.mappings == [] {
      LosslessSurvive(d.mappings);
      var n := |request + DecoderReport(provided, required)|;
      assert flat[n] == OwnReport(d)[0];
      forall j | 0 <= j < |flat[n].losses|
        ensures Survives(flat[n].losses[j])
      {
        DeclaredLossIsValid(flat, adapter, n, j);
        assert flat[n].losses[j] == CloneLoss(d.losses[j]);
        ClonedValueSurvives(d.losses[j]);
      }
      OneSurvives(OwnReport(d)[0]);
      assert OwnReport(d) == [OwnReport(d)[0]];
    }
  }

  lemma OneSurvives(m: Mapping)
    ensures ValuesSurvive([m]) <==> forall j :: 0 <= j < |m.losses| ==> Survives(m.losses[j])
  {
    hide Survives;
    assert ValuesSurvive([m]) ==> forall j :: 0 <= j < |[m][0].losses| ==> Survives([m][0].losses[j]);
  }

  lemma LosslessSurvive(ms: seq<Mapping>)
    requires forall i :: 0 <= i < |ms| ==> ms[i].losses == []
    ensures ValuesSurvive(ms)
  {
  }

  /** Whatever an adapter was asked, the kernel refuses what it refused, and confirms what
      it supported exactly when the declared loss values survive a round trip. The kernel
      puts the required response events into the policy it hands to the adapter. */
  lemma {:induction false} KernelNeverOverturnsTheAdapter(request: seq<Mapping>, renderer: Option<Decision>,
                                                          provided: seq<Name>, required: seq<Name>, policy: Policy)
    requires forall e :: e in required ==> EventFacet(e) in policy.required
    ensures var plan := AdapterPlan(request, renderer, provided, required, policy);
            KernelPlan(plan, policy).supported <==> plan.supported && InputsSurvive(request, renderer)
  {
    hide ComposeFlat, EventFacet, ValuesSurvive, AdapterReports;
    var plan := AdapterPlan(request, renderer, provided, required, policy);
    var kernel := Requiring(policy, [WIRE_RESPONSE]);
    var flat, adapter := AdapterInput(request, renderer, provided, required, policy);
    FlattenOne(plan.mappings);
    SameRequired(policy, required);
    WireIsRequired(policy, required);
    RequiredListsDoNotMatter(flat, kernel, adapter);
    SecondCompositionNeverOverturns(flat, kernel);
    if plan.supported {
      OnlyInputsMatter(request, renderer, provided, required, policy, flat);
    }
  }

  function AdapterReports(request: seq<Mapping>, renderer: Option<Decision>, provided: seq<Name>,
                          required: seq<Name>): seq<Mapping>
  {
    match renderer
    case None => request + [Mapping(WIRE_RESPONSE, [Name("response")], Unsupported, [])]
    case Some(d) => request + DecoderReport(provided, required) + RendererReport(d, required)
  }

  lemma AdapterInput(request: seq<Mapping>, renderer: Option<Decision>, provided: seq<Name>, required: seq<Name>,
                     policy: Policy)
    returns (flat: seq<Mapping>, adapter: Policy)
    ensures AdapterPlan(request, renderer, provided, required, policy) == ComposeFlat(flat, adapter)
    ensures flat == AdapterReports(request, renderer, provided, required)
    ensures adapter == Requiring(policy, [WIRE_RESPONSE])
              || adapter == Requiring(policy, [WIRE_RESPONSE] + EventFacets(required))
  {
    hide ComposeFlat;
    if renderer.None? {
      FlattenTwo(request, [Mapping(WIRE_RESPONSE, [Name("response")], Unsupported, [])]);
      flat := request + [Mapping(WIRE_RESPONSE, [Name("response")], Unsupported, [])];
      adapter := Requiring(policy, [WIRE_RESPONSE]);
    } else {
      FlattenThree(request, DecoderReport(provided, required), RendererReport(renderer.value, required));
      flat := request + DecoderReport(provided, required) + RendererReport(renderer.value, required);
      adapter := Requiring(policy, [WIRE_RESPONSE] + EventFacets(required));
    }
  }

  lemma SameRequired(policy: Policy, required: seq<Name>)
    requires forall e :: e in required ==> EventFacet(e) in policy.required
    ensures StringSet(Requiring(policy, [WIRE_RESPONSE]).required) ==
              StringSet(Requiring(policy, [WIRE_RESPONSE] + EventFacets(required)).required)
  {
    hide EventFacet;
    var a, b := policy.required + [WIRE_RESPONSE], policy.required + ([WIRE_RESPONSE] + EventFacets(required));
    forall x
      ensures x in a <==> x in b
    {
      if x in EventFacets(required) {
        var i :| 0 <= i < |required| && EventFacet(required[i]) == x;
        assert required[i] in required;
      }
    }
  }
}
