/** Lists sorted by a key, and why a list of elements with different keys has only one
    sorted arrangement. */
module KeyedLists {
  import opened Names
  import opened Sets

  function Insert<T(!new)>(x: T, s: seq<T>, key: T -> Name): seq<T>
  {
    if s == [] || !Less(key(s[0]), key(x)) then [x] + s else [s[0]] + Insert(x, s[1..], key)
  }

  function SortBy<T(!new)>(s: seq<T>, key: T -> Name): seq<T>
  {
    if s == [] then [] else Insert(s[0], SortBy(s[1..], key), key)
  }

  ghost predicate StrictlyAscending<T(!new)>(s: seq<T>, key: T -> Name)
  {
    forall i, j :: 0 <= i < j < |s| ==> Less(key(s[i]), key(s[j]))
  }

  ghost predicate DistinctKeys<T(!new)>(s: seq<T>, key: T -> Name)
  {
    forall i, j :: 0 <= i < j < |s| ==> key(s[i]) != key(s[j])
  }

  ghost predicate SameElements<T(!new)>(a: seq<T>, b: seq<T>)
  {
    forall x :: x in a <==> x in b
  }

  lemma {:induction false} InsertKeepsElements<T(!new)>(x: T, s: seq<T>, key: T -> Name)
    ensures multiset(Insert(x, s, key)) == multiset(s) + multiset{x}
    decreases |s|
  {
    if s != [] && Less(key(s[0]), key(x)) {
      InsertKeepsElements(x, s[1..], key);
      assert s == [s[0]] + s[1..];
    }
  }

  lemma {:induction false} SortKeepsElements<T(!new)>(s: seq<T>, key: T -> Name)
    ensures multiset(SortBy(s, key)) == multiset(s)
    ensures |SortBy(s, key)| == |s| && SameElements(SortBy(s, key), s)
    decreases |s|
  {
    if s != [] {
      SortKeepsElements(s[1..], key);
      InsertKeepsElements(s[0], SortBy(s[1..], key), key);
      assert s == [s[0]] + s[1..];
    }
    SameMultisets(SortBy(s, key), s);
  }

  lemma SameMultisets<T(!new)>(a: seq<T>, b: seq<T>)
    requires multiset(a) == multiset(b)
    ensures SameElements(a, b) && |a| == |b|
  {
    forall x
      ensures x in a <==> x in b
    {
      assert x in multiset(a) <==> x in a;
      assert x in multiset(b) <==> x in b;
    }
    assert |multiset(a)| == |a| && |multiset(b)| == |b|;
  }

  lemma {:induction false} InsertAscends<T(!new)>(x: T, s: seq<T>, key: T -> Name)
    requires StrictlyAscending(s, key) && forall y :: y in s ==> key(y) != key(x)
    ensures StrictlyAscending(Insert(x, s, key), key)
    decreases |s|
  {
    if s == [] {
      return;
    }
    Order(key(s[0]), key(x));
    if Less(key(s[0]), key(x)) {
      InsertAscends(x, s[1..], key);
      InsertKeepsElements(x, s[1..], key);
      var tail := Insert(x, s[1..], key);
      forall j | 0 <= j < |tail|
        ensures Less(key(s[0]), key(tail[j]))
      {
        assert tail[j] in multiset(tail);
        assert tail[j] == x || tail[j] in s[1..];
      }
    } else {
      assert s[0] in s;
      forall j | 0 <= j < |s|
        ensures Less(key(x), key(s[j]))
      {
        if j > 0 {
          TextLessIsTransitive(key(x).text, key(s[0]).text, key(s[j]).text);
        }
      }
    }
  }

  lemma {:induction false} SortAscends<T(!new)>(s: seq<T>, key: T -> Name)
    requires DistinctKeys(s, key)
    ensures StrictlyAscending(SortBy(s, key), key)
    decreases |s|
  {
    if s != [] {
      SortAscends(s[1..], key);
      SortKeepsElements(s[1..], key);
      forall y | y in SortBy(s[1..], key)
        ensures key(y) != key(s[0])
      {
        assert y in s[1..];
      }
      InsertAscends(s[0], SortBy(s[1..], key), key);
    }
  }

  lemma AscendingHasDistinctKeys<T(!new)>(s: seq<T>, key: T -> Name)
    requires StrictlyAscending(s, key)
    ensures DistinctKeys(s, key)
  {
    forall i, j | 0 <= i < j < |s|
      ensures key(s[i]) != key(s[j])
    {
      Order(key(s[i]), key(s[i]));
    }
  }

  lemma AscendingIsDistinct<T(!new)>(s: seq<T>, key: T -> Name)
    requires StrictlyAscending(s, key)
    ensures NoRepeats(s)
  {
    AscendingHasDistinctKeys(s, key);
    forall i, j | 0 <= i < j < |s|
      ensures s[i] != s[j]
    {
      assert key(s[i]) != key(s[j]);
    }
  }

  /** Two ascending lists with the same elements are the same list. */
  lemma {:induction false} OneAscendingList<T(!new)>(a: seq<T>, b: seq<T>, key: T -> Name)
    requires StrictlyAscending(a, key) && StrictlyAscending(b, key) && SameElements(a, b)
    ensures a == b
    decreases |a|
  {
    if a == [] {
      NoElements(a, b);
    } else {
      NoElements(b, a);
      assert a[0] in b && b[0] in a;
      Order(key(a[0]), key(b[0]));
      assert a[0] == b[0];
      TailElements(a, key);
      TailElements(b, key);
      OneAscendingList(a[1..], b[1..], key);
      assert a == [a[0]] + a[1..] && b == [b[0]] + b[1..];
    }
  }

  lemma NoElements<T(!new)>(a: seq<T>, b: seq<T>)
    requires SameElements(a, b)
    ensures a == [] ==> b == []
  {
    if b != [] {
      assert b[0] in a;
    }
  }

  lemma TailElements<T(!new)>(a: seq<T>, key: T -> Name)
    requires StrictlyAscending(a, key) && a != []
    ensures forall x :: x in a[1..] <==> x in a && x != a[0]
  {
    AscendingHasDistinctKeys(a, key);
    assert a == [a[0]] + a[1..];
    forall x | x in a[1..]
      ensures x != a[0]
    {
      var i :| 0 <= i < |a[1..]| && a[1..][i] == x;
      assert a[i + 1] == x;
    }
  }

  // ----- Lists that may repeat elements ---------------------------------------------------

  ghost predicate NonDescending<T(!new)>(s: seq<T>, key: T -> Name)
  {
    forall i, j :: 0 <= i < j < |s| ==> !Less(key(s[j]), key(s[i]))
  }

  lemma NotLessIsTransitive(a: Name, b: Name, c: Name)
    requires !Less(b, a) && !Less(c, b)
    ensures !Less(c, a)
  {
    Order(a, b);
    Order(b, c);
    if Less(c, a) {
      if a == b || b == c {
        return;
      }
      TextLessIsTransitive(c.text, a.text, b.text);
      Order(b, c);
    }
  }

  lemma {:induction false} InsertStaysOrdered<T(!new)>(x: T, s: seq<T>, key: T -> Name)
    requires NonDescending(s, key)
    ensures NonDescending(Insert(x, s, key), key)
    decreases |s|
  {
    if s == [] {
      return;
    }
    Order(key(s[0]), key(x));
    if Less(key(s[0]), key(x)) {
      InsertStaysOrdered(x, s[1..], key);
      InsertKeepsElements(x, s[1..], key);
      var tail := Insert(x, s[1..], key);
      forall j | 0 <= j < |tail|
        ensures !Less(key(tail[j]), key(s[0]))
      {
        assert tail[j] in multiset(tail);
        assert tail[j] == x || tail[j] in s[1..];
      }
    } else {
      forall j | 0 <= j < |s|
        ensures !Less(key(s[j]), key(x))
      {
        if j > 0 {
          NotLessIsTransitive(key(x), key(s[0]), key(s[j]));
        }
      }
    }
  }

  lemma {:induction false} SortOrders<T(!new)>(s: seq<T>, key: T -> Name)
    ensures NonDescending(SortBy(s, key), key)
    decreases |s|
  {
    if s != [] {
      SortOrders(s[1..], key);
      InsertStaysOrdered(s[0], SortBy(s[1..], key), key);
    }
  }

  ghost predicate KeysTell<T(!new)>(s: seq<T>, key: T -> Name)
  {
    forall x, y :: x in s && y in s && key(x) == key(y) ==> x == y
  }

  /** In an ordered list whose keys tell elements apart, repeats are neighbours. */
  lemma NeighboursShowRepeats<T(!new)>(s: seq<T>, key: T -> Name)
    requires NonDescending(s, key) && KeysTell(s, key) && forall i :: 0 < i < |s| ==> s[i] != s[i - 1]
    ensures StrictlyAscending(s, key)
  {
    forall i, j | 0 <= i < j < |s|
      ensures Less(key(s[i]), key(s[j]))
    {
      Order(key(s[i]), key(s[i + 1]));
      assert s[i] != s[i + 1];
      if j > i + 1 {
        NextIsLess(key(s[i]), key(s[i + 1]), key(s[j]));
      }
    }
  }

  lemma NextIsLess(a: Name, b: Name, c: Name)
    requires Less(a, b) && !Less(c, b)
    ensures Less(a, c)
  {
    Order(b, c);
    if b != c {
      TextLessIsTransitive(a.text, b.text, c.text);
    }
  }

  lemma RepeatsSurviveSorting<T(!new)>(s: seq<T>, t: seq<T>)
    requires multiset(s) == multiset(t) && NoRepeats(s)
    ensures NoRepeats(t)
  {
    forall i, j | 0 <= i < j < |t|
      ensures t[i] != t[j]
    {
      if t[i] == t[j] {
        CountTwice(t, i, j);
        CountOnce(s, t[i]);
      }
    }
  }

  lemma CountTwice<T(!new)>(t: seq<T>, i: nat, j: nat)
    requires i < j < |t| && t[i] == t[j]
    ensures multiset(t)[t[i]] >= 2
  {
    assert t == t[..j] + [t[j]] + t[j + 1..];
    assert t[..j][i] == t[i];
    assert t[i] in multiset(t[..j]);
  }

  lemma {:induction false} CountOnce<T(!new)>(s: seq<T>, x: T)
    requires NoRepeats(s)
    ensures multiset(s)[x] <= 1
    decreases |s|
  {
    if s != [] {
      CountOnce(s[1..], x);
      assert s == [s[0]] + s[1..];
      assert forall i :: 0 <= i < |s[1..]| ==> s[0] != s[i + 1] == s[1..][i];
    }
  }
}
