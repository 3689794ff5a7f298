/** Small building blocks shared by every part of the checklist model:
    optional values, Python-style string tests, filtering and decimal numerals. */
module Common {

  /** A nullable column, an absent form field or a failed lookup. */
  datatype Option<T> = None | Some(value: T)

  /** Raw bytes, as stored in the binary signature columns. */
  type Bytes = seq<bv8>

  /** Timestamps are microsecond counts (Python datetimes keep microseconds); dates are day
      numbers, a date standing for its midnight. */
  const SECOND := 1_000_000
  const DAY := 86400 * SECOND

  /** Python's `form.get(key)` on a submitted form. */
  function FormGet<K, V>(form: map<K, V>, key: K): (r: Option<V>)
    ensures r.Some? <==> key in form
    ensures r.Some? ==> r.value == form[key]
  {
    if key in form then Some(form[key]) else None
  }

  /** Python's `form.get(key, default)`. */
  function FormGetOr<K, V>(form: map<K, V>, key: K, default: V): (r: V)
    ensures key in form ==> r == form[key]
    ensures key !in form ==> r == default
  {
    if key in form then form[key] else default
  }

  /** Python truthiness of an optional string: present and non-empty. */
  predicate Truthy(s: Option<string>)
  {
    s.Some? && s.value != ""
  }

  /** Python's `value or default` on an optional string. */
  function OrDefault(s: Option<string>, default: string): (r: string)
    ensures Truthy(s) ==> r == s.value
    ensures !Truthy(s) ==> r == default
  {
    if Truthy(s) then s.value else default
  }

  /** `sub` occurs in `s` starting at position `i`. */
  predicate OccursAt(s: string, sub: string, i: int)
  {
    0 <= i <= |s| - |sub| && s[i..i + |sub|] == sub
  }

  /** An occurrence in `b` is an occurrence in `a + b`, shifted by `|a|`. */
  lemma OccursAtShift(a: string, b: string, sub: string, i: int)
    requires OccursAt(b, sub, i)
    ensures OccursAt(a + b, sub, |a| + i)
  {
    assert (a + b)[|a| + i..|a| + i + |sub|] == b[i..i + |sub|];
  }

  /** Python's `sub in s` on strings. */
  predicate HasSubstring(s: string, sub: string)
  {
    exists i | 0 <= i <= |s| - |sub| :: OccursAt(s, sub, i)
  }

  /** The first position of `c` in `s`. */
  function IndexOf(s: string, c: char): (k: nat)
    requires c in s
    ensures k < |s| && s[k] == c && c !in s[..k]
  {
    if s[0] == c then 0 else
      assert c in s[1..] by { var j :| 0 <= j < |s| && s[j] == c; assert s[1..][j - 1] == c; }
      var k := 1 + IndexOf(s[1..], c);
      assert s[..k] == [s[0]] + s[1..][..k - 1];
      k
  }

  /** The elements of `s` satisfying `p`, in their original order (an SQL WHERE over a table). */
  function Filter<T(!new)>(s: seq<T>, p: T -> bool): (r: seq<T>)
    ensures |r| <= |s|
    ensures forall x :: x in r <==> x in s && p(x)
    ensures multiset(r) <= multiset(s)
  {
    if s == [] then []
    else
      var rest := Filter(s[1..], p);
      assert s == [s[0]] + s[1..];
      if p(s[0]) then [s[0]] + rest else rest
  }

  /** Filtering twice keeps the elements passing both tests, in the same order
      (a query narrowed by a second `.filter(...)`). */
  lemma {:induction false} FilterFilter<T(!new)>(s: seq<T>, p: T -> bool, q: T -> bool)
    ensures Filter(Filter(s, p), q) == Filter(s, x => p(x) && q(x))
  {
    if s != [] {
      FilterFilter(s[1..], p, q);
    }
  }

  /** Tests that agree on every element filter alike. */
  lemma {:induction false} FilterSamePredicate<T(!new)>(s: seq<T>, p: T -> bool, q: T -> bool)
    requires forall x :: p(x) == q(x)
    ensures Filter(s, p) == Filter(s, q)
  {
    if s != [] {
      FilterSamePredicate(s[1..], p, q);
    }
  }

  /** A second filter by `q` narrows a filter by `p` to the filter by their conjunction `r`. */
  lemma NarrowFilter<T(!new)>(s: seq<T>, p: T -> bool, q: T -> bool, r: T -> bool)
    requires forall x :: r(x) == (p(x) && q(x))
    ensures Filter(Filter(s, p), q) == Filter(s, r)
  {
    FilterFilter(s, p, q);
    FilterSamePredicate(s, x => p(x) && q(x), r);
  }

  /** The position of the first element satisfying `p` (a `.filter_by(...).first()` query). */
  function IndexWhere<T>(s: seq<T>, p: T -> bool): (r: Option<nat>)
    ensures r.Some? ==> r.value < |s| && p(s[r.value])
    ensures r.Some? ==> forall j :: 0 <= j < r.value ==> !p(s[j])
    ensures r.None? ==> forall j :: 0 <= j < |s| ==> !p(s[j])
  {
    if s == [] then None
    else if p(s[0]) then Some(0)
    else match IndexWhere(s[1..], p)
      case None => None
      case Some(k) => Some(k + 1)
  }

  /** The first element satisfying `p`, if any. */
  function FirstWhere<T>(s: seq<T>, p: T -> bool): (r: Option<T>)
    ensures r.Some? ==> r.value in s && p(r.value)
    ensures r.None? ==> forall x :: x in s ==> !p(x)
  {
    match IndexWhere(s, p)
    case None => None
    case Some(k) => Some(s[k])
  }

  /** Two tables on which `p` holds at the same positions have the same first match. */
  lemma IndexWhereSamePattern<T>(s: seq<T>, t: seq<T>, p: T -> bool)
    requires |s| == |t|
    requires forall j :: 0 <= j < |s| ==> p(s[j]) == p(t[j])
    ensures IndexWhere(s, p) == IndexWhere(t, p)
  {
  }

  /** Appending a row that does not match leaves the first match where it was. */
  lemma IndexWhereAppendOther<T>(s: seq<T>, x: T, p: T -> bool)
    requires !p(x)
    ensures IndexWhere(s + [x], p) == IndexWhere(s, p)
  {
    var a, b := IndexWhere(s + [x], p), IndexWhere(s, p);
    if a.Some? {
      assert (s + [x])[a.value] == s[a.value];
    }
    if b.Some? {
      assert (s + [x])[b.value] == s[b.value];
    }
  }

  /** Merging maps one after another is the same as merging the later two first. */
  lemma MergeAssociative<K, V>(a: map<K, V>, b: map<K, V>, c: map<K, V>)
    ensures (a + b) + c == a + (b + c)
  {
  }

  /** The decimal digit character for `d`. */
  function DigitChar(d: nat): (c: char)
    requires d < 10
    ensures '0' <= c <= '9' && c as int - '0' as int == d
  {
    (('0' as int) + d) as char
  }

  predicate IsDigit(c: char)
  {
    '0' <= c <= '9'
  }

  predicate AllDigits(s: string)
  {
    forall i :: 0 <= i < |s| ==> IsDigit(s[i])
  }

  /** Python's `str(n)` for a natural number. */
  function NatToString(n: nat): (s: string)
    ensures |s| >= 1 && AllDigits(s)
  {
    if n < 10 then [DigitChar(n)] else NatToString(n / 10) + [DigitChar(n % 10)]
  }

  /** The value of a string of decimal digits. */
  function DecimalValue(s: string): nat
    requires AllDigits(s)
  {
    if s == [] then 0
    else DecimalValue(s[..|s| - 1]) * 10 + (s[|s| - 1] as int - '0' as int)
  }

  /** Reading back a printed number gives the number. */
  lemma {:induction false} DecimalRoundTrip(n: nat)
    ensures DecimalValue(NatToString(n)) == n
  {
    if n >= 10 {
      var s := NatToString(n);
      DecimalRoundTrip(n / 10);
      assert s[..|s| - 1] == NatToString(n / 10);
    }
  }

  /** Distinct numbers print differently, so numbered column names never collide. */
  lemma NatToStringInjective(m: nat, n: nat)
    ensures NatToString(m) == NatToString(n) ==> m == n
  {
    DecimalRoundTrip(m);
    DecimalRoundTrip(n);
  }

  /** Python's `str.isspace()` for one character (the whitespace `str.strip()` and `int()` skip). */
  predicate IsSpace(c: char)
  {
    var n := c as int;
    (0x09 <= n <= 0x0D) || (0x1C <= n <= 0x20) || n == 0x85 || n == 0xA0 || n == 0x1680
    || (0x2000 <= n <= 0x200A) || n == 0x2028 || n == 0x2029 || n == 0x202F || n == 0x205F || n == 0x3000
  }

  /** Neither end of `s` is whitespace. */
  predicate Stripped(s: string)
  {
    s == [] || (!IsSpace(s[0]) && !IsSpace(s[|s| - 1]))
  }

  /** Every character of `s` is whitespace. */
  predicate AllSpace(s: string)
  {
    forall i :: 0 <= i < |s| ==> IsSpace(s[i])
  }

  /** The number of whitespace characters `s` starts with. */
  function LeadingSpaces(s: string): (n: nat)
    ensures n <= |s|
    ensures AllSpace(s[..n])
    ensures n < |s| ==> !IsSpace(s[n])
    ensures s != [] && !IsSpace(s[0]) ==> n == 0
  {
    if s != [] && IsSpace(s[0]) then 1 + LeadingSpaces(s[1..]) else 0
  }

  /** The number of whitespace characters `s` ends with. */
  function TrailingSpaces(s: string): (n: nat)
    ensures n <= |s|
    ensures AllSpace(s[|s| - n..])
    ensures n < |s| ==> !IsSpace(s[|s| - 1 - n])
    ensures s != [] && !IsSpace(s[|s| - 1]) ==> n == 0
    ensures s != [] && !IsSpace(s[0]) ==> n < |s|
  {
    if s != [] && IsSpace(s[|s| - 1]) then 1 + TrailingSpaces(s[..|s| - 1]) else 0
  }

  /** `s.strip()`: the whitespace at both ends removed, the middle kept as it is. */
  function Strip(s: string): (r: string)
    ensures Stripped(r)
    ensures Stripped(s) ==> r == s
    ensures StrippedFrom(s, r)
  {
    var i := LeadingSpaces(s);
    var t := s[i..];
    var n := TrailingSpaces(t);
    var r := t[..|t| - n];
    assert r == s[i..i + |r|] && s[i + |r|..] == t[|t| - n..];
    assert Stripped(r) by {
      if r != [] {
        assert r[0] == t[0] && r[|r| - 1] == t[|t| - 1 - n];
      }
    }
    assert Stripped(s) ==> r == s by {
      if Stripped(s) && s != [] {
        assert i == 0 && t == s && n == 0;
      }
    }
    r
  }

  /** `r` is what follows the leading whitespace of `s`, and only whitespace follows `r`:
      together with `Stripped(r)` this makes `r` the text between the maximal runs of
      whitespace at the two ends. */
  predicate StrippedFrom(s: string, r: string)
  {
    var i := LeadingSpaces(s);
    i + |r| <= |s| && r == s[i..i + |r|] && AllSpace(s[i + |r|..])
  }
}
