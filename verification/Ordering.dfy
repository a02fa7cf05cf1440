/**
 The byte order on identities, the sorted view of a set of identities, and the
 two library routines the coordinator relies on: sorting collected identities
 and binary search.
 */
module Ordering {

  /** Strict lexicographic order; identities are ASCII, so this is Go's string order. */
  predicate Less(a: string, b: string) {
    if b == [] then false
    else if a == [] then true
    else a[0] < b[0] || (a[0] == b[0] && Less(a[1..], b[1..]))
  }

  lemma LessTransitive(a: string, b: string, c: string)
    requires Less(a, b) && Less(b, c)
    ensures Less(a, c)
  {
    if a != [] && a[0] == b[0] && b[0] == c[0] {
      LessTransitive(a[1..], b[1..], c[1..]);
    }
  }

  lemma LessTotal(a: string, b: string)
    ensures a == b || Less(a, b) || Less(b, a)
    ensures !(Less(a, b) && Less(b, a))
    ensures !Less(a, a)
  {
    if a != [] && b != [] && a[0] == b[0] {
      LessTotal(a[1..], b[1..]);
      assert a == [a[0]] + a[1..] && b == [b[0]] + b[1..];
    }
    if a != [] {
      LessTotal(a[1..], a[1..]);
    }
  }

  ghost function Elements<T>(s: seq<T>): set<T> {
    set x | x in s
  }

  ghost predicate Distinct<T>(s: seq<T>) {
    forall i, j :: 0 <= i < j < |s| ==> s[i] != s[j]
  }

  ghost predicate Enumerates<T>(s: seq<T>, all: set<T>) {
    Distinct(s) && Elements(s) == all
  }

  lemma {:induction false} EnumerationSize<T>(s: seq<T>)
    requires Distinct(s)
    ensures |Elements(s)| == |s|
  {
    if s != [] {
      var front, last := s[..|s| - 1], s[|s| - 1];
      EnumerationSize(front);
      assert Elements(s) == Elements(front) + {last};
      assert last !in front;
    }
  }

  lemma SubsetSize<T>(a: set<T>, b: set<T>)
    requires a <= b
    ensures |a| <= |b|
  {
    if a != {} {
      var x :| x in a;
      SubsetSize(a - {x}, b - {x});
    }
  }

  ghost predicate StrictlySorted(s: seq<string>) {
    forall i, j :: 0 <= i < j < |s| ==> Less(s[i], s[j])
  }

  lemma SortedIsDistinct(s: seq<string>)
    requires StrictlySorted(s)
    ensures Distinct(s)
  {
    forall i, j | 0 <= i < j < |s| ensures s[i] != s[j] {
      LessTotal(s[i], s[j]);
    }
  }

  /** A strictly sorted list is determined by the set of its elements. */
  lemma {:induction false} SortedUnique(a: seq<string>, b: seq<string>)
    requires StrictlySorted(a) && StrictlySorted(b)
    requires Elements(a) == Elements(b)
    ensures a == b
  {
    SortedIsDistinct(a);
    SortedIsDistinct(b);
    if a == [] {
      EnumerationSize(b);
    } else {
      assert a[0] in Elements(b);
      assert b != [];
      assert b[0] in Elements(a);
      LessTotal(a[0], b[0]);
      assert a[0] == b[0];
      forall x ensures x in a[1..] <==> x in b[1..] {
        assert x in a[1..] <==> x in Elements(a) && x != a[0];
        assert x in b[1..] <==> x in Elements(b) && x != b[0];
      }
      SortedUnique(a[1..], b[1..]);
      assert a == [a[0]] + a[1..] && b == [b[0]] + b[1..];
    }
  }

  /** Position at which x belongs in a sorted list: the number of smaller elements in front. */
  ghost predicate SearchPoint(s: seq<string>, x: string, i: int) {
    && 0 <= i <= |s|
    && (forall j :: 0 <= j < i ==> Less(s[j], x))
    && (forall j :: i <= j < |s| ==> !Less(s[j], x))
  }

  /** Binary search for the first element that is not below x. */
  method SearchStrings(s: seq<string>, x: string) returns (i: nat)
    requires StrictlySorted(s)
    ensures SearchPoint(s, x, i)
    ensures x in s <==> i < |s| && s[i] == x
  {
    var lo, hi := 0, |s|;
    while lo < hi
      invariant 0 <= lo <= hi <= |s|
      invariant forall j :: 0 <= j < lo ==> Less(s[j], x)
      invariant forall j :: hi <= j < |s| ==> !Less(s[j], x)
    {
      var mid := (lo + hi) / 2;
      if Less(s[mid], x) {
        forall j | 0 <= j < mid ensures Less(s[j], x) { LessTransitive(s[j], s[mid], x); }
        lo := mid + 1;
      } else {
        forall j | mid < j < |s| ensures !Less(s[j], x) {
          if Less(s[j], x) { LessTransitive(s[mid], s[j], x); }
        }
        hi := mid;
      }
    }
    i := lo;
    SearchHit(s, x, i);
  }

  lemma SearchHit(s: seq<string>, x: string, i: nat)
    requires StrictlySorted(s) && SearchPoint(s, x, i)
    ensures x in s <==> i < |s| && s[i] == x
  {
    LessTotal(x, x);
    if x in s {
      var k :| 0 <= k < |s| && s[k] == x;
    }
  }

  /** The strictly sorted list of a set's elements. */
  ghost function SortedView(s: set<string>): (r: seq<string>)
    ensures StrictlySorted(r) && Elements(r) == s
    ensures |r| == |s|
  {
    if s == {} then [] else
      LeastExists(s);
      var first :| IsLeast(s, first);
      var rest := SortedView(s - {first});
      PrependLeast(s, first, rest);
      [first] + rest
  }

  ghost predicate IsLeast(s: set<string>, first: string) {
    first in s && forall x :: x in s && x != first ==> Less(first, x)
  }

  lemma PrependLeast(s: set<string>, first: string, rest: seq<string>)
    requires IsLeast(s, first) && StrictlySorted(rest) && Elements(rest) == s - {first}
    ensures StrictlySorted([first] + rest) && Elements([first] + rest) == s
  {
    var r := [first] + rest;
    assert Elements(r) == {first} + Elements(rest);
    forall i, j | 0 <= i < j < |r| ensures Less(r[i], r[j]) {
      assert rest[j - 1] in Elements(rest);
    }
  }

  lemma {:induction false} LeastExists(s: set<string>)
    requires s != {}
    ensures exists first :: IsLeast(s, first)
  {
    var y :| y in s;
    if s == {y} {
      assert IsLeast(s, y);
    } else {
      LeastExists(s - {y});
      var z :| IsLeast(s - {y}, z);
      LeastOfTwo(s, y, z);
    }
  }

  lemma LeastOfTwo(s: set<string>, y: string, z: string)
    requires y in s && IsLeast(s - {y}, z)
    ensures IsLeast(s, if Less(y, z) then y else z)
  {
    LessTotal(y, z);
    forall x | x in s && x != y && x != z && Less(y, z) ensures Less(y, x) {
      LessTransitive(y, z, x);
    }
  }

  /** Collects a set in no particular order and sorts it. */
  method SortStrings(items: set<string>) returns (r: seq<string>)
    ensures r == SortedView(items)
  {
    r := [];
    var rest := items;
    while rest != {}
      invariant rest <= items
      invariant StrictlySorted(r) && Elements(r) == items - rest
      decreases rest
    {
      var x :| x in rest;
      assert x !in Elements(r);
      var i := SearchStrings(r, x);
      ghost var old_r := r;
      InsertKeepsSorted(r, x, i);
      r := r[..i] + [x] + r[i..];
      rest := rest - {x};
    }
    SortedUnique(r, SortedView(items));
  }

  lemma InsertKeepsSorted(s: seq<string>, x: string, i: nat)
    requires StrictlySorted(s) && SearchPoint(s, x, i) && x !in s
    ensures StrictlySorted(s[..i] + [x] + s[i..])
    ensures Elements(s[..i] + [x] + s[i..]) == Elements(s) + {x}
  {
    var r := s[..i] + [x] + s[i..];
    forall j | i <= j < |s| ensures Less(x, s[j]) { LessTotal(x, s[j]); }
    assert forall y :: y in r <==> y == x || y in s[..i] || y in s[i..];
    assert s == s[..i] + s[i..];
  }

  /** The list with every occurrence of x dropped. */
  function Without(s: seq<string>, x: string): seq<string> {
    if s == [] then []
    else if s[0] == x then Without(s[1..], x)
    else [s[0]] + Without(s[1..], x)
  }

  lemma {:induction false} WithoutElements(s: seq<string>, x: string)
    ensures Elements(Without(s, x)) == Elements(s) - {x}
    ensures StrictlySorted(s) ==> StrictlySorted(Without(s, x))
  {
    if s != [] {
      WithoutElements(s[1..], x);
      var rest := Without(s[1..], x);
      assert s == [s[0]] + s[1..];
      assert Elements(s) == {s[0]} + Elements(s[1..]);
      if s[0] != x {
        assert Elements([s[0]] + rest) == {s[0]} + Elements(rest);
        if StrictlySorted(s) {
          forall j | 0 <= j < |rest| ensures Less(s[0], rest[j]) {
            assert rest[j] in Elements(rest);
            assert rest[j] in Elements(s[1..]);
          }
        }
      }
    }
  }

  lemma {:induction false} WithoutAbsent(s: seq<string>, x: string)
    requires x !in s
    ensures Without(s, x) == s
  {
    if s != [] {
      WithoutAbsent(s[1..], x);
      assert s == [s[0]] + s[1..];
    }
  }

  /** Removing the hit of a binary search is removal of the element from the set. */
  lemma CutIsWithout(s: seq<string>, i: nat)
    requires StrictlySorted(s) && i < |s|
    ensures s[..i] + s[i + 1..] == Without(s, s[i])
  {
    SortedIsDistinct(s);
    WithoutElements(s, s[i]);
    CutElements(s, i);
    CutSorted(s, i);
    SortedUnique(s[..i] + s[i + 1..], Without(s, s[i]));
  }

  lemma CutElements<T>(s: seq<T>, i: nat)
    requires Distinct(s) && i < |s|
    ensures Elements(s[..i] + s[i + 1..]) == Elements(s) - {s[i]}
  {
    var cut := s[..i] + s[i + 1..];
    assert s == s[..i] + [s[i]] + s[i + 1..];
    assert forall y :: y in s <==> y in s[..i] || y == s[i] || y in s[i + 1..];
    assert forall y :: y in cut <==> y in s[..i] || y in s[i + 1..];
    assert s[i] !in cut;
  }

  lemma CutSorted(s: seq<string>, i: nat)
    requires StrictlySorted(s) && i < |s|
    ensures StrictlySorted(s[..i] + s[i + 1..])
  {
    var cut := s[..i] + s[i + 1..];
    forall a, b | 0 <= a < b < |cut| ensures Less(cut[a], cut[b]) {
      var a', b' := if a < i then a else a + 1, if b < i then b else b + 1;
      assert cut[a] == s[a'] && cut[b] == s[b'];
    }
  }

  function IndexOf<T(==)>(s: seq<T>, x: T): (i: int)
    ensures -1 <= i < |s|
    ensures i >= 0 ==> s[i] == x
    ensures i == -1 <==> x !in s
  {
    if s == [] then -1
    else if s[|s| - 1] == x then |s| - 1
    else IndexOf(s[..|s| - 1], x)
  }
}
