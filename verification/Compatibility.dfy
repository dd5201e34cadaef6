/** The compatibility planner: stage reports are composed facet by facet, fail closed,
    under loss grants, denials and a server ceiling. The adapter composes once and the
    kernel composes the result again. */
module Compatibility {
  import opened Sums
  import opened Names
  import opened Losses

  datatype Disposition = Preserved | Translated | Degraded | Unsupported | Unknown | Invalid

  datatype Mapping = Mapping(facet: Name, paths: seq<Name>, disposition: Disposition, losses: seq<Loss>)

  datatype Policy = Policy(
    required: seq<Name>, allowed: seq<Name>, denied: seq<Name>, sources: map<Name, seq<Name>>,
    allowOnly: bool, ceilingAllow: seq<Name>, ceilingDeny: seq<Name>)

  datatype Fidelity = NativeFidelity | TranslatedFidelity | LossyFidelity | UnsupportedFidelity

  datatype Plan = Plan(supported: bool, fidelity: Fidelity, mappings: seq<Mapping>, losses: seq<Loss>)

  const REJECTED := Plan(false, UnsupportedFidelity, [], [])

  function StringSet(values: seq<Name>): set<Name>
  {
    set v | v in values && v != UNSET
  }

  predicate Permitted(policy: Policy, id: Name)
  {
    && id !in StringSet(policy.denied) && id !in StringSet(policy.ceilingDeny) && id in StringSet(policy.allowed)
    && (policy.allowOnly ==> id in StringSet(policy.ceilingAllow))
  }

  function SourcesOf(policy: Policy, id: Name): seq<Name>
  {
    if id in policy.sources then policy.sources[id] else []
  }

  // ----- One facet --------------------------------------------------------------------

  function Flatten<T>(reports: seq<seq<T>>): seq<T>
  {
    if reports == [] then [] else Flatten(reports[..|reports| - 1]) + reports[|reports| - 1]
  }

  /** The stages that report on a facet, in execution order. */
  function StagesOf(flat: seq<Mapping>, facet: Name): seq<Mapping>
  {
    if flat == [] then []
    else
      var front := StagesOf(flat[..|flat| - 1], facet);
      if flat[|flat| - 1].facet == facet then front + [flat[|flat| - 1]] else front
  }

  function Anonymous(l: Loss): Loss
  {
    l.(sources := [])
  }

  /** The losses of some stages; a stage cannot grant its own losses. */
  function LossesOf(stages: seq<Mapping>): seq<Loss>
  {
    if stages == [] then []
    else LossesOf(stages[..|stages| - 1]) + seq(|stages[|stages| - 1].losses|,
           i requires 0 <= i < |stages[|stages| - 1].losses| => Anonymous(stages[|stages| - 1].losses[i]))
  }

  function PathsOf(stages: seq<Mapping>): seq<Name>
  {
    if stages == [] then [] else AppendUnique(PathsOf(stages[..|stages| - 1]), stages[|stages| - 1].paths)
  }

  function AddStage(soFar: Disposition, stage: Disposition): Disposition
  {
    match stage
    case Unsupported => Unsupported
    case Unknown => Unknown
    case Degraded => if soFar == Unsupported || soFar == Unknown then soFar else Degraded
    case Translated => if soFar == Preserved then Translated else soFar
    case _ => soFar
  }

  function DispositionOf(stages: seq<Mapping>): Disposition
  {
    if stages == [] then Preserved
      else AddStage(DispositionOf(stages[..|stages| - 1]), stages[|stages| - 1].disposition)
  }

  predicate FailsClosed(d: Disposition)
  {
    d == Unsupported || d == Unknown
  }

  function WithLosses(d: Disposition, records: seq<Loss>): Disposition
  {
    if records != [] && !FailsClosed(d) then Degraded else d
  }

  /** A facet's stages as one mapping, before policy; None is an outright rejection. */
  function Combine(flat: seq<Mapping>, facet: Name): Option<Mapping>
  {
    var stages := StagesOf(flat, facet);
    if stages == [] then Some(Mapping(facet, [], Unknown, []))
    else if !AllValid(LossesOf(stages)) then None
    else
      match MergeAll(LossesOf(stages))
      case None => None
      case Some(records) =>
        var d := WithLosses(DispositionOf(stages), records);
        if d == Degraded && records == [] then None else Some(Mapping(facet, PathsOf(stages), d, records))
  }

  function Grant(policy: Policy, l: Loss): Loss
  {
    if Permitted(policy, l.id) then l.(sources := AppendUnique(l.sources, SourcesOf(policy, l.id))) else l
  }

  function Granted(policy: Policy, ls: seq<Loss>): seq<Loss>
  {
    seq(|ls|, i requires 0 <= i < |ls| => Grant(policy, ls[i]))
  }

  predicate AllPermitted(policy: Policy, ls: seq<Loss>)
  {
    forall i :: 0 <= i < |ls| ==> Permitted(policy, ls[i].id)
  }

  function Judge(policy: Policy, m: Mapping): Mapping
  {
    m.(losses := Granted(policy, m.losses),
      disposition := if AllPermitted(policy, m.losses) then m.disposition else Unsupported)
  }

  // ----- The plan ---------------------------------------------------------------------

  predicate Malformed(m: Mapping)
  {
    m.facet == UNSET || m.disposition == Invalid
  }

  predicate WellFormed(flat: seq<Mapping>)
  {
    forall i :: 0 <= i < |flat| ==> !Malformed(flat[i])
  }

  function Facets(flat: seq<Mapping>): set<Name>
  {
    set i | 0 <= i < |flat| :: flat[i].facet
  }

  function JudgeAll(flat: seq<Mapping>, facets: seq<Name>, policy: Policy): Option<seq<Mapping>>
  {
    if facets == [] then Some([])
    else
      var last := facets[|facets| - 1];
      match JudgeAll(flat, facets[..|facets| - 1], policy)
      case None => None
      case Some(front) => if Combine(flat, last).None? then None
                          else Some(front + [Judge(policy, Combine(flat, last).value)])
  }

  /** The losses of the degraded facets. */
  function DegradedLosses(mappings: seq<Mapping>): seq<Loss>
  {
    if mappings == [] then []
    else
      var last := mappings[|mappings| - 1];
      DegradedLosses(mappings[..|mappings| - 1]) + if last.disposition == Degraded then last.losses else []
  }

  predicate Blocks(policy: Policy, m: Mapping)
  {
    (m.facet in StringSet(policy.required) || m.losses != []) && FailsClosed(m.disposition)
  }

  predicate Supports(policy: Policy, mappings: seq<Mapping>)
  {
    forall i :: 0 <= i < |mappings| ==> !Blocks(policy, mappings[i])
  }

  function FidelityOf(mappings: seq<Mapping>): Fidelity
  {
    if exists i :: 0 <= i < |mappings| && mappings[i].disposition == Degraded then LossyFidelity
    else if exists i :: 0 <= i < |mappings| && mappings[i].disposition == Translated then TranslatedFidelity
    else NativeFidelity
  }

  function Finish(policy: Policy, mappings: seq<Mapping>): Plan
  {
    match MergeAll(DegradedLosses(mappings))
    case None => REJECTED
    case Some(losses) =>
      Plan(Supports(policy, mappings), if Supports(policy, mappings) then FidelityOf(mappings) else UnsupportedFidelity,
        mappings, losses)
  }

  function PlanFacets(flat: seq<Mapping>, policy: Policy): seq<Name>
  {
    Sorted(Facets(flat) + StringSet(policy.required))
  }

  function Compose(reports: seq<seq<Mapping>>, policy: Policy): Plan
  {
    ComposeFlat(Flatten(reports), policy)
  }

  function ComposeFlat(flat: seq<Mapping>, policy: Policy): Plan
  {
    if !WellFormed(flat) then REJECTED
    else
      match JudgeAll(flat, PlanFacets(flat, policy), policy)
      case None => REJECTED
      case Some(mappings) => Finish(policy, mappings)
  }

  // ----- Facts about one facet ----------------------------------------------------------

  lemma {:induction false} StagesAreTheFacets(flat: seq<Mapping>, facet: Name, m: Mapping)
    ensures m in StagesOf(flat, facet) <==> m in flat && m.facet == facet
    decreases |flat|
  {
    if flat != [] {
      StagesAreTheFacets(flat[..|flat| - 1], facet, m);
      assert flat == flat[..|flat| - 1] + [flat[|flat| - 1]];
    }
  }

  ghost predicate DeclaredBy(m: Mapping, l: Loss)
  {
    exists i :: 0 <= i < |m.losses| && Anonymous(m.losses[i]) == l
  }

  ghost predicate Declares(stages: seq<Mapping>, l: Loss)
  {
    exists m :: m in stages && DeclaredBy(m, l)
  }

  lemma LastStageDeclares(stages: seq<Mapping>, l: Loss)
    requires stages != []
    ensures l in LossesOf(stages) <==> l in LossesOf(stages[..|stages| - 1]) || DeclaredBy(stages[|stages| - 1], l)
  {
    var front, last := LossesOf(stages[..|stages| - 1]), stages[|stages| - 1];
    var added := seq(|last.losses|, i requires 0 <= i < |last.losses| => Anonymous(last.losses[i]));
    assert LossesOf(stages) == front + added;
    if DeclaredBy(last, l) {
      var i :| 0 <= i < |last.losses| && Anonymous(last.losses[i]) == l;
      assert added[i] == l;
    }
    hide Anonymous;
    if l in added {
      var i :| 0 <= i < |added| && added[i] == l;
      assert Anonymous(last.losses[i]) == l;
    }
  }

  lemma NothingDeclares(l: Loss)
    ensures !Declares([], l)
  {
  }

  lemma OneMoreDeclares(front: seq<Mapping>, last: Mapping, l: Loss)
    ensures Declares(front + [last], l) <==> Declares(front, l) || DeclaredBy(last, l)
  {
    hide DeclaredBy;
    var stages := front + [last];
    if m :| m in front && DeclaredBy(m, l) {
      assert m in stages;
    }
    if DeclaredBy(last, l) {
      assert last in stages;
    }
  }

  lemma {:induction false} LossesAreDeclared(stages: seq<Mapping>, l: Loss)
    ensures l in LossesOf(stages) <==> Declares(stages, l)
    decreases |stages|
  {
    hide Declares, DeclaredBy, Anonymous;
    if stages == [] {
      NothingDeclares(l);
    } else {
      hide LossesOf;
      var front, last := stages[..|stages| - 1], stages[|stages| - 1];
      LossesAreDeclared(front, l);
      LastStageDeclares(stages, l);
      assert stages == front + [last];
      OneMoreDeclares(front, last, l);
    }
  }

  ghost predicate HasStage(stages: seq<Mapping>, d: Disposition)
  {
    exists i :: 0 <= i < |stages| && stages[i].disposition == d
  }

  ghost predicate HasClosedStage(stages: seq<Mapping>)
  {
    exists i :: 0 <= i < |stages| && FailsClosed(stages[i].disposition)
  }

  /** One stage that fails closed decides the facet; otherwise any degraded one does,
      and otherwise any translated one: the order of the stages does not matter. */
  lemma {:induction false} DispositionIsTheWorst(stages: seq<Mapping>)
    ensures FailsClosed(DispositionOf(stages)) <==> HasClosedStage(stages)
    ensures !HasClosedStage(stages) ==> (DispositionOf(stages) == Degraded <==> HasStage(stages, Degraded))
    ensures !HasClosedStage(stages) && !HasStage(stages, Degraded) ==>
              (DispositionOf(stages) == Translated <==> HasStage(stages, Translated))
    ensures DispositionOf(stages) != Invalid
    decreases |stages|
  {
    if stages != [] {
      var n := |stages| - 1;
      DispositionIsTheWorst(stages[..n]);
      assert stages == stages[..n] + [stages[n]];
      forall d
        ensures HasStage(stages, d) <==> HasStage(stages[..n], d) || stages[n].disposition == d
      {
        LongerStages(stages[..n], stages[n], d);
      }
      LongerClosedStages(stages[..n], stages[n]);
    }
  }

  lemma LongerStages(front: seq<Mapping>, last: Mapping, d: Disposition)
    ensures HasStage(front + [last], d) <==> HasStage(front, d) || last.disposition == d
  {
    var stages := front + [last];
    if HasStage(front, d) {
      var i :| 0 <= i < |front| && front[i].disposition == d;
      assert stages[i].disposition == d;
    }
    if last.disposition == d {
      assert stages[|front|].disposition == d;
    }
  }

  lemma LongerClosedStages(front: seq<Mapping>, last: Mapping)
    ensures HasClosedStage(front + [last]) <==> HasClosedStage(front) || FailsClosed(last.disposition)
  {
    var stages := front + [last];
    if HasClosedStage(front) {
      var i :| 0 <= i < |front| && FailsClosed(front[i].disposition);
      assert FailsClosed(stages[i].disposition);
    }
    if FailsClosed(last.disposition) {
      assert FailsClosed(stages[|front|].disposition);
    }
  }

  lemma {:induction false} JudgedFacets(flat: seq<Mapping>, facets: seq<Name>, policy: Policy)
    ensures JudgeAll(flat, facets, policy).Some? <==> forall i :: 0 <= i < |facets| ==> Combine(flat, facets[i]).Some?
    ensures JudgeAll(flat, facets, policy).Some? ==>
              var ms := JudgeAll(flat, facets, policy).value;
              |ms| == |facets| && forall i ::
                0 <= i < |facets| ==>
                  Combine(flat, facets[i]).Some? && ms[i] == Judge(policy, Combine(flat, facets[i]).value)
    decreases |facets|
  {
    hide Combine, Judge;
    if facets != [] {
      JudgedFacets(flat, facets[..|facets| - 1], policy);
    }
  }
}
