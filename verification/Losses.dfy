/** Loss records: their values as JSON documents, their validation, and the merge
    that keeps one record per loss ID. */
module Losses {
  import opened Sums
  import opened Names

  /** An encoded document, compared byte by byte. A canonical text is what encoding
      a decoded document gives; a raw text may decode to one or not at all. The only
      text that decodes to null is "null" itself. */
  datatype Text = NullText | Canonical(id: nat, size: nat) | RawText(id: nat, size: nat, decodes: Option<(nat, nat)>)

  /** A declared value: absent, one that cannot be encoded, or one with an encoding. */
  datatype Value = Nil | Unencodable | Json(text: Text)

  function Encoded(v: Value): Option<Text>
  {
    match v
    case Nil => Some(NullText)
    case Unencodable => None
    case Json(text) => Some(text)
  }

  /** Encode and decode; a value that cannot make the trip is kept as it is. */
  function CloneValue(v: Value): Value
  {
    match v
    case Json(NullText) => Nil
    case Json(RawText(_, _, Some(document))) => Json(Canonical(document.0, document.1))
    case _ => v
  }

  function SizeOf(text: Text): nat
  {
    match text
    case NullText => 4
    case Canonical(_, size) => size
    case RawText(_, size, _) => size
  }

  predicate SameJson(a: Value, b: Value)
  {
    Encoded(a).Some? && Encoded(a) == Encoded(b)
  }

  datatype Loss = Loss(id: Name, requested: Value, effective: Value, paths: seq<Name>, sources: seq<Name>)

  const MAX_VALUE_BYTES := 4096
  const MAX_PATH_BYTES := 256

  predicate ValidId(id: Name)
  {
    && id != UNSET && !Space(id.text[0]) && !Space(id.text[|id.text| - 1])
    && forall i :: 0 <= i < |id.text| ==> id.text[i] !in " \t\r\n"
  }

  predicate ValidValue(v: Value)
  {
    v != Nil && Encoded(v).Some? && SizeOf(Encoded(v).value) <= MAX_VALUE_BYTES
  }

  predicate ValidPaths(paths: seq<Name>)
  {
    paths != [] && forall i :: 0 <= i < |paths| ==> paths[i] != UNSET && |paths[i].text| <= MAX_PATH_BYTES
  }

  predicate ValidLoss(l: Loss)
  {
    ValidId(l.id) && ValidValue(l.requested) && ValidValue(l.effective) && ValidPaths(l.paths)
  }

  predicate AllValid(ls: seq<Loss>)
  {
    forall i :: 0 <= i < |ls| ==> ValidLoss(ls[i])
  }

  function CloneLoss(l: Loss): Loss
  {
    l.(requested := CloneValue(l.requested), effective := CloneValue(l.effective))
  }

  predicate CanonicalLoss(l: Loss)
  {
    CloneLoss(l) == l
  }

  // ----- Lists of distinct names ------------------------------------------------------

  function AppendOne(target: seq<Name>, v: Name): seq<Name>
  {
    if v == UNSET || v in target then target else target + [v]
  }

  function AppendUnique(target: seq<Name>, values: seq<Name>): seq<Name>
  {
    if values == [] then target else AppendOne(AppendUnique(target, values[..|values| - 1]), values[|values| - 1])
  }

  ghost predicate UniqueNames(s: seq<Name>)
  {
    (forall i, j :: 0 <= i < j < |s| ==> s[i] != s[j]) && UNSET !in s
  }

  lemma {:induction false} AppendUniqueIsUnique(target: seq<Name>, values: seq<Name>)
    requires UniqueNames(target)
    ensures UniqueNames(AppendUnique(target, values))
    decreases |values|
  {
    if values != [] {
      AppendUniqueIsUnique(target, values[..|values| - 1]);
    }
  }

  lemma {:induction false} AppendUniqueAddsExactly(target: seq<Name>, values: seq<Name>, x: Name)
    ensures x in AppendUnique(target, values) <==> x in target || (x in values && x != UNSET)
    decreases |values|
  {
    if values != [] {
      AppendUniqueAddsExactly(target, values[..|values| - 1], x);
      assert values == values[..|values| - 1] + [values[|values| - 1]];
    }
  }

  lemma {:induction false} UniqueListsAreKept(values: seq<Name>)
    requires UniqueNames(values)
    ensures AppendUnique([], values) == values
    decreases |values|
  {
    if values != [] {
      var front := values[..|values| - 1];
      assert values == front + [values[|values| - 1]];
      UniqueListsAreKept(front);
      assert values[|values| - 1] !in front;
    }
  }

  /** Long lists look names up in a set, short ones scan; both are `AppendUnique`. */
  method AppendUniqueNames(target: seq<Name>, values: seq<Name>) returns (result: seq<Name>)
    ensures result == AppendUnique(target, values)
  {
    result := target;
    if |target| + |values| > 16 {
      var seen := set v | v in target;
      for i := 0 to |values|
        invariant result == AppendUnique(target, values[..i])
        invariant forall x :: x in seen <==> x in result
      {
        assert values[..i + 1][..i] == values[..i];
        if values[i] != UNSET && values[i] !in seen {
          result := result + [values[i]];
          seen := seen + {values[i]};
        }
      }
    } else {
      for i := 0 to |values|
        invariant result == AppendUnique(target, values[..i])
      {
        assert values[..i + 1][..i] == values[..i];
        if values[i] == UNSET {
          continue;
        }
        var found := false;
        for j := 0 to |result|
          invariant found <==> values[i] in result[..j]
        {
          if result[j] == values[i] {
            found := true;
            break;
          }
        }
        assert result[..|result|] == result;
        if !found {
          result := result + [values[i]];
        }
      }
    }
    assert values[..|values|] == values;
  }

  // ----- Merging records by ID --------------------------------------------------------

  predicate HasId(ls: seq<Loss>, id: Name)
  {
    exists i :: 0 <= i < |ls| && ls[i].id == id
  }

  function FirstAt(ls: seq<Loss>, id: Name): (i: nat)
    requires HasId(ls, id)
    ensures i < |ls| && ls[i].id == id && forall h :: 0 <= h < i ==> ls[h].id != id
  {
    if ls[0].id == id then 0 else
      assert HasId(ls[1..], id) by {
        var i :| 0 <= i < |ls| && ls[i].id == id;
        assert ls[1..][i - 1].id == id;
      }
      FirstAt(ls[1..], id) + 1
  }

  function First(ls: seq<Loss>, id: Name): Loss
    requires HasId(ls, id)
  {
    ls[FirstAt(ls, id)]
  }

  /** The later record must encode to what the earlier one decodes to. */
  predicate Matches(earlier: Loss, later: Loss)
  {
    SameJson(earlier.requested, later.requested) && SameJson(earlier.effective, later.effective)
  }

  function Merge(records: seq<Loss>, incoming: Loss): Option<seq<Loss>>
  {
    if !HasId(records, incoming.id) then Some(records + [CloneLoss(incoming)])
    else
      var i := FirstAt(records, incoming.id);
      if !Matches(records[i], incoming) then None
      else Some(records[i := records[i].(paths := AppendUnique(records[i].paths, incoming.paths),
                                         sources := AppendUnique(records[i].sources, incoming.sources))])
  }

  function MergeAll(ls: seq<Loss>): Option<seq<Loss>>
  {
    if ls == [] then Some([])
    else
      match MergeAll(ls[..|ls| - 1])
      case None => None
      case Some(records) => Merge(records, ls[|ls| - 1])
  }

  /** In-place merge into the first record of the same ID. */
  method MergeLossRecord(records: seq<Loss>, incoming: Loss) returns (merged: Option<seq<Loss>>)
    ensures merged == Merge(records, incoming)
  {
    for i := 0 to |records|
      invariant forall h :: 0 <= h < i ==> records[h].id != incoming.id
    {
      if records[i].id != incoming.id {
        continue;
      }
      assert FirstAt(records, incoming.id) == i;
      if !SameJson(records[i].requested, incoming.requested) || !SameJson(records[i].effective, incoming.effective) {
        return None;
      }
      var paths := AppendUniqueNames(records[i].paths, incoming.paths);
      var sources := AppendUniqueNames(records[i].sources, incoming.sources);
      return Some(records[i := records[i].(paths := paths, sources := sources)]);
    }
    merged := Some(records + [CloneLoss(incoming)]);
  }

  ghost predicate DistinctIds(ls: seq<Loss>)
  {
    forall i, j :: 0 <= i < j < |ls| ==> ls[i].id != ls[j].id
  }

  /** Each record agrees with the first one of its ID. */
  ghost predicate Consistent(ls: seq<Loss>)
  {
    forall k :: 0 <= k < |ls| ==> Fits(ls, k)
  }

  ghost predicate Fits(ls: seq<Loss>, k: nat)
    requires k < |ls|
  {
    HasId(ls[..k], ls[k].id) ==> Matches(CloneLoss(First(ls[..k], ls[k].id)), ls[k])
  }

  /** The merged records: one per ID, with the values of the first of that ID. */
  ghost predicate Represents(records: seq<Loss>, ls: seq<Loss>)
  {
    && DistinctIds(records)
    && (forall k :: 0 <= k < |ls| ==> HasId(records, ls[k].id))
    && (forall i :: 0 <= i < |records| ==> RecordOf(records[i], ls))
  }

  ghost predicate RecordOf(r: Loss, ls: seq<Loss>)
  {
    HasId(ls, r.id) && r.requested == CloneValue(First(ls, r.id).requested)
      && r.effective == CloneValue(First(ls, r.id).effective)
  }

  lemma FirstOfLonger(ls: seq<Loss>, l: Loss, id: Name)
    requires HasId(ls, id)
    ensures HasId(ls + [l], id) && First(ls + [l], id) == First(ls, id)
  {
    var i := FirstAt(ls, id);
    assert (ls + [l])[i].id == id;
    assert forall h :: 0 <= h < |ls| ==> (ls + [l])[h] == ls[h];
  }

  lemma FirstOfNew(ls: seq<Loss>, l: Loss)
    requires !HasId(ls, l.id)
    ensures HasId(ls + [l], l.id) && First(ls + [l], l.id) == l
  {
    assert (ls + [l])[|ls|].id == l.id;
    assert forall h :: 0 <= h < |ls| ==> (ls + [l])[h] == ls[h];
  }

  lemma RecordOfLonger(r: Loss, ls: seq<Loss>, l: Loss)
    requires RecordOf(r, ls)
    ensures RecordOf(r, ls + [l])
  {
    FirstOfLonger(ls, l, r.id);
  }

  lemma MergeRepresents(records: seq<Loss>, ls: seq<Loss>, l: Loss)
    requires Represents(records, ls)
    ensures HasId(records, l.id) <==> HasId(ls, l.id)
    ensures Merge(records, l).Some? <==> (HasId(ls, l.id) ==> Matches(CloneLoss(First(ls, l.id)), l))
    ensures Merge(records, l).Some? ==> Represents(Merge(records, l).value, ls + [l])
  {
    if HasId(ls, l.id) {
      var k :| 0 <= k < |ls| && ls[k].id == l.id;
      assert HasId(records, ls[k].id);
    }
    if HasId(records, l.id) {
      assert RecordOf(records[FirstAt(records, l.id)], ls);
    }
    if Merge(records, l).Some? {
      MergedRecords(records, ls, l);
    }
  }

  lemma MergedRecords(records: seq<Loss>, ls: seq<Loss>, l: Loss)
    requires Represents(records, ls) && Merge(records, l).Some? && (HasId(records, l.id) <==> HasId(ls, l.id))
    ensures Represents(Merge(records, l).value, ls + [l])
  {
    var next := Merge(records, l).value;
    if !HasId(ls, l.id) {
      FirstOfNew(ls, l);
    }
    forall i | 0 <= i < |next|
      ensures RecordOf(next[i], ls + [l])
    {
      if i < |records| {
        RecordOfLonger(records[i], ls, l);
        assert next[i].id == records[i].id;
      }
    }
    forall k | 0 <= k < |ls + [l]|
      ensures HasId(next, (ls + [l])[k].id)
    {
      KeptIds(records, l, (ls + [l])[k].id);
      if k < |ls| {
        assert HasId(records, ls[k].id);
      }
    }
  }

  lemma KeptIds(records: seq<Loss>, l: Loss, id: Name)
    requires Merge(records, l).Some?
    ensures HasId(Merge(records, l).value, id) <==> HasId(records, id) || id == l.id
  {
    var next := Merge(records, l).value;
    if HasId(records, id) {
      assert next[FirstAt(records, id)].id == id;
    }
    if id == l.id && !HasId(records, id) {
      assert next[|records|].id == id;
    }
    if HasId(next, id) {
      var i := FirstAt(next, id);
      assert i < |records| ==> records[i].id == id;
    }
  }

  /** Merging succeeds exactly on consistent lists, and keeps the first of each ID. */
  lemma {:induction false} MergeAllSucceedsExactly(ls: seq<Loss>)
    ensures MergeAll(ls).Some? <==> Consistent(ls)
    ensures MergeAll(ls).Some? ==> Represents(MergeAll(ls).value, ls)
    decreases |ls|
  {
    if ls != [] {
      var n := |ls| - 1;
      MergeAllSucceedsExactly(ls[..n]);
      assert ls == ls[..n] + [ls[n]];
      ConsistentPrefix(ls);
      if MergeAll(ls[..n]).Some? {
        MergeRepresents(MergeAll(ls[..n]).value, ls[..n], ls[n]);
      }
    }
  }

  lemma ConsistentPrefix(ls: seq<Loss>)
    requires ls != []
    ensures Consistent(ls) <==> Consistent(ls[..|ls| - 1]) && Fits(ls, |ls| - 1)
  {
    var n := |ls| - 1;
    forall k | 0 <= k < n
      ensures Fits(ls, k) <==> Fits(ls[..n], k)
    {
      assert ls[..n][..k] == ls[..k];
    }
  }

  // ----- Values that survive the round trip --------------------------------------------

  predicate SameValues(a: Loss, b: Loss)
  {
    Encoded(CloneValue(a.requested)) == Encoded(CloneValue(b.requested))
    && Encoded(CloneValue(a.effective)) == Encoded(CloneValue(b.effective))
  }

  ghost predicate Agree(ls: seq<Loss>)
  {
    forall i, k :: 0 <= i < |ls| && 0 <= k < |ls| && ls[i].id == ls[k].id ==> SameValues(ls[i], ls[k])
  }

  predicate Encodable(l: Loss)
  {
    Encoded(l.requested).Some? && Encoded(l.effective).Some?
  }

  lemma MatchingIsAgreeing(a: Loss, b: Loss)
    ensures Matches(CloneLoss(a), b) ==> SameValues(a, b)
    ensures CanonicalLoss(b) && Encodable(b) && SameValues(a, b) ==> Matches(CloneLoss(a), b)
  {
  }

  /** A consistent list agrees everywhere; for canonical values the converse holds, so
      the order of the records does not matter. */
  lemma ConsistentAgrees(ls: seq<Loss>)
    requires Consistent(ls)
    ensures Agree(ls)
  {
    forall i, k | 0 <= i < |ls| && 0 <= k < |ls| && ls[i].id == ls[k].id
      ensures SameValues(ls[i], ls[k])
    {
      AgreesWithFirst(ls, i);
      AgreesWithFirst(ls, k);
    }
  }

  lemma AgreesWithFirst(ls: seq<Loss>, k: nat)
    requires Consistent(ls) && k < |ls|
    ensures HasId(ls, ls[k].id) && SameValues(First(ls, ls[k].id), ls[k])
  {
    var id := ls[k].id;
    var j := FirstAt(ls, id);
    if j < k {
      assert Fits(ls, k);
      FirstInPrefix(ls, k, id);
      MatchingIsAgreeing(ls[j], ls[k]);
    }
  }

  lemma FirstInPrefix(ls: seq<Loss>, k: nat, id: Name)
    requires k <= |ls| && HasId(ls, id) && FirstAt(ls, id) < k
    ensures HasId(ls[..k], id) && First(ls[..k], id) == First(ls, id)
  {
    assert ls[..k][FirstAt(ls, id)].id == id;
    var j := FirstAt(ls[..k], id);
    assert ls[j].id == id;
  }

  lemma AgreeingIsConsistent(ls: seq<Loss>)
    requires Agree(ls) && forall k :: 0 <= k < |ls| ==> CanonicalLoss(ls[k]) && Encodable(ls[k])
    ensures Consistent(ls)
  {
    forall k | 0 <= k < |ls|
      ensures Fits(ls, k)
    {
      if HasId(ls[..k], ls[k].id) {
        var j := FirstAt(ls[..k], ls[k].id);
        assert ls[..k][j] == ls[j];
        MatchingIsAgreeing(ls[j], ls[k]);
      }
    }
  }

  /** Records of distinct, cloned losses merge to themselves. */
  lemma {:induction false} DistinctRecordsAreKept(ls: seq<Loss>)
    requires DistinctIds(ls) && forall k :: 0 <= k < |ls| ==> CanonicalLoss(ls[k])
    ensures MergeAll(ls) == Some(ls)
    decreases |ls|
  {
    if ls != [] {
      var n := |ls| - 1;
      DistinctRecordsAreKept(ls[..n]);
      assert !HasId(ls[..n], ls[n].id);
      assert CloneLoss(ls[n]) == ls[n];
      assert ls == ls[..n] + [ls[n]];
    }
  }
}
