/** `ORDER BY <column> DESC`: the newest-first orderings of the listing screens. */
module Ordering {

  /** Keys never increase along `s`. */
  ghost predicate SortedDesc<T>(s: seq<T>, key: T -> int)
  {
    forall i, j :: 0 <= i < j < |s| ==> key(s[i]) >= key(s[j])
  }

  /** Places `x` in front of the first element whose key is smaller. */
  function InsertDesc<T>(x: T, s: seq<T>, key: T -> int): (r: seq<T>)
    requires SortedDesc(s, key)
    ensures SortedDesc(r, key)
    ensures multiset(r) == multiset(s) + multiset{x}
    ensures |r| == |s| + 1
    ensures forall y :: y in r ==> y == x || y in s
  {
    if s == [] || key(x) >= key(s[0]) then [x] + s
    else
      var rest := InsertDesc(x, s[1..], key);
      assert s == [s[0]] + s[1..];
      HeadStaysFirst(s, x, rest, key);
      [s[0]] + rest
  }

  /** The first row stays ahead of the sorted rest it keeps when `x` goes behind it. */
  lemma HeadStaysFirst<T>(s: seq<T>, x: T, rest: seq<T>, key: T -> int)
    requires s != [] && SortedDesc(s, key) && key(x) < key(s[0]) && SortedDesc(rest, key)
    requires forall y :: y in rest ==> y == x || y in s[1..]
    ensures SortedDesc([s[0]] + rest, key)
  {
    var r := [s[0]] + rest;
    forall j | 0 < j < |r|
      ensures key(r[0]) >= key(r[j])
    {
      assert r[j] == rest[j - 1];
      assert r[j] in rest;
      if r[j] != x {
        var m :| 0 <= m < |s[1..]| && s[1..][m] == r[j];
        assert s[m + 1] == r[j];
      }
    }
    forall i, j | 0 <= i < j < |r|
      ensures key(r[i]) >= key(r[j])
    {
      if 0 < i {
        assert r[i] == rest[i - 1] && r[j] == rest[j - 1];
      }
    }
  }

  /** The rows of `s`, newest (largest key) first; rows with equal keys may come in any order. */
  function SortDesc<T>(s: seq<T>, key: T -> int): (r: seq<T>)
    ensures SortedDesc(r, key)
    ensures multiset(r) == multiset(s)
    ensures |r| == |s|
  {
    if s == [] then []
    else
      assert s == [s[0]] + s[1..];
      InsertDesc(s[0], SortDesc(s[1..], key), key)
  }

  /** Sorting keeps exactly the rows it was given. */
  lemma SortDescSameRows<T>(s: seq<T>, key: T -> int, x: T)
    ensures x in SortDesc(s, key) <==> x in s
  {
    var r := SortDesc(s, key);
    assert x in r <==> x in multiset(r);
    assert x in s <==> x in multiset(s);
  }
}
