/** Helpers standing in for Go's `strings` package and for the sorted
    listing of a `sets.String`. A Dafny `string` here stands for a Go
    string, one character per byte, so lengths and slices count bytes. */
module StringUtil {

  /** The elements of a sequence as a set (`sets.NewString(xs...)`). */
  function Elems(xs: seq<string>): (r: set<string>)
    ensures forall x :: x in r <==> x in xs
    ensures r == {} <==> xs == []
  {
    if xs == [] then {} else {xs[0]} + Elems(xs[1..])
  }

  /** Go's `a < b` on strings: byte-wise lexicographic order. */
  predicate Less(a: string, b: string)
  {
    b != [] && (a == [] || a[0] < b[0] || (a[0] == b[0] && Less(a[1..], b[1..])))
  }

  lemma {:induction false} LessIrreflexive(a: string)
    ensures !Less(a, a)
  {
    if a != [] {
      LessIrreflexive(a[1..]);
    }
  }

  lemma {:induction false} LessTransitive(a: string, b: string, c: string)
    requires Less(a, b) && Less(b, c)
    ensures Less(a, c)
  {
    if a != [] && a[0] == b[0] && b[0] == c[0] {
      LessTransitive(a[1..], b[1..], c[1..]);
    }
  }

  lemma {:induction false} LessTotal(a: string, b: string)
    requires a != b
    ensures Less(a, b) || Less(b, a)
  {
    if a != [] && b != [] && a[0] == b[0] {
      assert a == [a[0]] + a[1..] && b == [b[0]] + b[1..];
      LessTotal(a[1..], b[1..]);
    }
  }

  /** Strictly increasing, hence also free of duplicates. */
  predicate StrictlySorted(s: seq<string>)
  {
    forall i, j :: 0 <= i < j < |s| ==> Less(s[i], s[j])
  }

  lemma SortedCons(x: string, s: seq<string>)
    requires StrictlySorted(s)
    requires forall y :: y in s ==> Less(x, y)
    ensures StrictlySorted([x] + s)
  {
    forall i, j | 0 <= i < j < |[x] + s|
      ensures Less(([x] + s)[i], ([x] + s)[j])
    {
      if i == 0 {
        assert ([x] + s)[j] == s[j - 1];
        assert s[j - 1] in s;
      } else {
        assert ([x] + s)[i] == s[i - 1] && ([x] + s)[j] == s[j - 1];
      }
    }
  }

  /** Inserts `x` into a strictly sorted sequence, keeping it strictly
      sorted and without duplicates. */
  function Insert(x: string, s: seq<string>): (r: seq<string>)
    requires StrictlySorted(s)
    ensures StrictlySorted(r)
    ensures forall y :: y in r <==> y == x || y in s
  {
    if s == [] then
      [x]
    else if x == s[0] then
      s
    else if Less(x, s[0]) then
      assert forall y :: y in s ==> Less(x, y) by {
        forall y | y in s ensures Less(x, y) {
          var k :| 0 <= k < |s| && s[k] == y;
          if k > 0 {
            LessTransitive(x, s[0], y);
          }
        }
      }
      SortedCons(x, s);
      [x] + s
    else
      var rest := Insert(x, s[1..]);
      assert forall y :: y in rest ==> Less(s[0], y) by {
        forall y | y in rest ensures Less(s[0], y) {
          if y == x {
            LessTotal(x, s[0]);
          } else {
            var k :| 0 <= k < |s[1..]| && s[1..][k] == y;
            assert s[k + 1] == y;
          }
        }
      }
      SortedCons(s[0], rest);
      assert s == [s[0]] + s[1..];
      [s[0]] + rest
  }

  /** `sets.String.List()`: the members of a set in increasing order. */
  method SortedList(s: set<string>) returns (r: seq<string>)
    ensures StrictlySorted(r)
    ensures forall y :: y in r <==> y in s
  {
    r := [];
    var rest := s;
    while rest != {}
      invariant rest <= s
      invariant StrictlySorted(r)
      invariant forall y :: y in r <==> y in s && y !in rest
      decreases rest
    {
      var x :| x in rest;
      r := Insert(x, r);
      rest := rest - {x};
    }
  }

  /** `strings.Join`. */
  function Join(parts: seq<string>, sep: string): string
  {
    if |parts| == 0 then ""
    else if |parts| == 1 then parts[0]
    else parts[0] + sep + Join(parts[1..], sep)
  }

  /** The `n` characters of `s` from position `i`. */
  function Piece(s: string, i: nat, n: nat): (r: string)
    requires i + n <= |s|
    ensures |r| == n && forall k :: 0 <= k < n ==> r[k] == s[i + k]
  {
    s[i..i + n]
  }

  /** `x` occurs in `s` as a contiguous piece. */
  ghost predicate Occurs(x: string, s: string)
  {
    exists i: nat :: i + |x| <= |s| && Piece(s, i, |x|) == x
  }

  /** An occurrence survives text added on either side. */
  lemma OccursWithin(x: string, a: string, s: string, b: string)
    requires Occurs(x, s)
    ensures Occurs(x, a + s + b)
  {
    var i: nat :| i + |x| <= |s| && Piece(s, i, |x|) == x;
    assert Piece(a + s + b, |a| + i, |x|) == x;
  }

  /** Every part occurs in the joined string. */
  lemma {:induction false} JoinContains(parts: seq<string>, sep: string, k: int)
    requires 0 <= k < |parts|
    ensures Occurs(parts[k], Join(parts, sep))
  {
    var j := Join(parts, sep);
    if |parts| == 1 || k == 0 {
      assert Piece(j, 0, |parts[0]|) == parts[0];
    } else {
      JoinContains(parts[1..], sep, k - 1);
      assert parts[1..][k - 1] == parts[k];
      OccursWithin(parts[k], parts[0] + sep, Join(parts[1..], sep), "");
      assert parts[0] + sep + Join(parts[1..], sep) + "" == j;
    }
  }

  /** `strings.LastIndex` for a single character: the position of the last
      occurrence of `c` in `s`, or -1. */
  function LastIndex(s: string, c: char): (i: int)
    ensures -1 <= i < |s|
    ensures i >= 0 ==> s[i] == c
    ensures forall j :: i < j < |s| ==> s[j] != c
    ensures i == -1 <==> c !in s
  {
    if s == [] then -1
    else if s[|s| - 1] == c then |s| - 1
    else LastIndex(s[..|s| - 1], c)
  }
}
