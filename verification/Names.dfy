/** Names, their byte-wise order, and sorted lists of distinct names. */
module Names {

  /** A name is a string that is only compared; the empty name is "unset". */
  datatype Name = Name(text: string)

  const UNSET := Name("")

  /** White space, as trimming understands it. */
  predicate Space(c: char)
  {
    c in " \t\n\r" || c == '\U{b}' || c == '\U{c}' || c == '\U{85}' || c == '\U{a0}' || c == '\U{1680}'
    || '\U{2000}' <= c <= '\U{200a}' || c in ['\U{2028}', '\U{2029}', '\U{202f}', '\U{205f}', '\U{3000}']
  }

  predicate TextLess(a: string, b: string)
  {
    b != "" && (a == "" || a[0] < b[0] || (a[0] == b[0] && TextLess(a[1..], b[1..])))
  }

  predicate Less(a: Name, b: Name)
  {
    TextLess(a.text, b.text)
  }

  lemma {:induction false} TextLessIsTotal(a: string, b: string)
    ensures TextLess(a, b) || a == b || TextLess(b, a)
    ensures !(TextLess(a, b) && TextLess(b, a)) && !TextLess(a, a)
    decreases a
  {
    if a != "" {
      TextLessIsTotal(a[1..], if b == "" then "" else b[1..]);
      if b != "" && a[0] == b[0] && a[1..] == b[1..] {
        assert a == [a[0]] + a[1..] && b == [b[0]] + b[1..];
      }
    }
  }

  lemma {:induction false} TextLessIsTransitive(a: string, b: string, c: string)
    requires TextLess(a, b) && TextLess(b, c)
    ensures TextLess(a, c)
    decreases a
  {
    if a != "" && a[0] == b[0] && b[0] == c[0] {
      TextLessIsTransitive(a[1..], b[1..], c[1..]);
    }
  }

  lemma Order(a: Name, b: Name)
    ensures Less(a, b) || a == b || Less(b, a)
    ensures !(Less(a, b) && Less(b, a)) && !Less(a, a)
  {
    TextLessIsTotal(a.text, b.text);
    TextLessIsTotal(a.text, a.text);
  }

  ghost predicate Ascending(s: seq<Name>)
  {
    forall i, j :: 0 <= i < j < |s| ==> Less(s[i], s[j])
  }

  ghost predicate SortedList(s: seq<Name>, elements: set<Name>)
  {
    Ascending(s) && (forall x :: x in s <==> x in elements)
  }

  predicate Below(m: Name, s: set<Name>)
  {
    forall x :: x in s && x != m ==> Less(m, x)
  }

  lemma LowerIsBelow(a: Name, m: Name, s: set<Name>)
    requires Less(a, m) && Below(m, s - {a}) && m in s
    ensures Below(a, s)
  {
    forall x | x in s && x != a
      ensures Less(a, x)
    {
      if x != m {
        assert Less(m, x);
        TextLessIsTransitive(a.text, m.text, x.text);
      }
    }
  }

  lemma {:induction false} HasLeast(s: set<Name>)
    requires s != {}
    ensures exists m :: m in s && Below(m, s)
    decreases |s|
  {
    var a :| a in s;
    if s == {a} {
      assert Below(a, s);
      return;
    }
    HasLeast(s - {a});
    var m :| m in s - {a} && Below(m, s - {a});
    Order(a, m);
    if Less(a, m) {
      LowerIsBelow(a, m, s);
    } else {
      assert Below(m, s);
    }
  }

  lemma OneLeast(s: set<Name>, a: Name, b: Name)
    requires a in s && Below(a, s) && b in s && Below(b, s)
    ensures a == b
  {
    Order(a, b);
  }

  function Least(s: set<Name>): (m: Name)
    requires s != {}
    ensures m in s && Below(m, s)
  {
    HasLeast(s);
    assert forall a, b | a in s && b in s && Below(a, s) && Below(b, s) :: a == b by {
      forall a, b | a in s && b in s && Below(a, s) && Below(b, s)
        ensures a == b
      {
        OneLeast(s, a, b);
      }
    }
    var m :| m in s && Below(m, s);
    m
  }

  /** The names of a set in ascending order. */
  function Sorted(s: set<Name>): (r: seq<Name>)
    ensures SortedList(r, s)
    decreases |s|
  {
    if s == {} then [] else [Least(s)] + Sorted(s - {Least(s)})
  }

  /** There is only one sorted list of a set. */
  lemma {:induction false} SortedListsAreUnique(a: seq<Name>, b: seq<Name>, s: set<Name>)
    requires SortedList(a, s) && SortedList(b, s)
    ensures a == b
    decreases |a|
  {
    EmptyTogether(a, s);
    EmptyTogether(b, s);
    if s != {} {
      assert a[0] in b && b[0] in a;
      Order(a[0], b[0]);
      SortedTail(a, s);
      SortedTail(b, s);
      SortedListsAreUnique(a[1..], b[1..], s - {a[0]});
      assert a == [a[0]] + a[1..] && b == [b[0]] + b[1..];
    }
  }

  lemma EmptyTogether(a: seq<Name>, s: set<Name>)
    requires SortedList(a, s)
    ensures a == [] <==> s == {}
  {
    if a != [] {
      assert a[0] in s;
    }
    if s != {} {
      var x :| x in s;
      assert x in a;
    }
  }

  lemma SortedTail(a: seq<Name>, s: set<Name>)
    requires SortedList(a, s) && a != []
    ensures SortedList(a[1..], s - {a[0]})
  {
    forall x | x in a[1..]
      ensures x in s - {a[0]}
    {
      var i :| 0 <= i < |a[1..]| && a[1..][i] == x;
      assert Less(a[0], a[i + 1]);
      Order(a[0], a[0]);
    }
    forall x | x in s - {a[0]}
      ensures x in a[1..]
    {
      var i :| 0 <= i < |a| && a[i] == x;
      assert a[1..][i - 1] == x;
    }
  }
}
