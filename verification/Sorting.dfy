/** Python's sorted(): a stable sort by a total preorder. */
module Sorting {

  ghost predicate TotalPreorder<T(!new)>(le: (T, T) -> bool)
  {
    && (forall a, b :: le(a, b) || le(b, a))
    && (forall a, b, c :: le(a, b) && le(b, c) ==> le(a, c))
  }

  predicate SortedBy<T>(le: (T, T) -> bool, s: seq<T>)
  {
    forall i, j :: 0 <= i < j < |s| ==> le(s[i], s[j])
  }

  /** Puts x behind every element that may stand before it. */
  function InsertBy<T>(le: (T, T) -> bool, x: T, s: seq<T>): (r: seq<T>)
    ensures multiset(r) == multiset(s) + multiset{x}
  {
    if s == [] then [x]
    else
      assert s == s[..|s| - 1] + [s[|s| - 1]];
      if le(s[|s| - 1], x) then s + [x] else InsertBy(le, x, s[..|s| - 1]) + [s[|s| - 1]]
  }

  function SortBy<T>(le: (T, T) -> bool, s: seq<T>): (r: seq<T>)
    ensures multiset(r) == multiset(s)
  {
    if s == [] then []
    else
      assert s == s[..|s| - 1] + [s[|s| - 1]];
      InsertBy(le, s[|s| - 1], SortBy(le, s[..|s| - 1]))
  }

  lemma SameElements<T>(s: seq<T>, r: seq<T>)
    requires multiset(s) == multiset(r)
    ensures |s| == |r|
    ensures forall x :: x in s <==> x in r
  {
    assert |s| == |multiset(s)| == |multiset(r)| == |r|;
    assert forall x :: x in s <==> x in multiset(s);
    assert forall x :: x in r <==> x in multiset(r);
  }

  lemma SortByElements<T>(le: (T, T) -> bool, s: seq<T>)
    ensures |SortBy(le, s)| == |s|
    ensures forall x :: x in s <==> x in SortBy(le, s)
  {
    SameElements(s, SortBy(le, s));
  }

  lemma {:induction false} InsertBySorted<T(!new)>(le: (T, T) -> bool, x: T, s: seq<T>)
    requires TotalPreorder(le) && SortedBy(le, s)
    ensures SortedBy(le, InsertBy(le, x, s))
  {
    if s != [] {
      var front, last := s[..|s| - 1], s[|s| - 1];
      if le(last, x) {
        assert forall i :: 0 <= i < |s| - 1 ==> le(s[i], last);
        SortedSnoc(le, s, x);
      } else {
        InsertBySorted(le, x, front);
        InsertedElements(le, x, front);
        SortedSnoc(le, InsertBy(le, x, front), last);
      }
    }
  }

  lemma InsertedElements<T>(le: (T, T) -> bool, x: T, s: seq<T>)
    ensures forall y :: y in InsertBy(le, x, s) ==> y == x || y in s
  {
    SameElements(InsertBy(le, x, s), s + [x]);
  }

  lemma SortedSnoc<T>(le: (T, T) -> bool, s: seq<T>, x: T)
    requires SortedBy(le, s) && forall y :: y in s ==> le(y, x)
    ensures SortedBy(le, s + [x])
  {
  }

  lemma {:induction false} SortBySorted<T(!new)>(le: (T, T) -> bool, s: seq<T>)
    requires TotalPreorder(le)
    ensures SortedBy(le, SortBy(le, s))
  {
    if s != [] {
      SortBySorted(le, s[..|s| - 1]);
      InsertBySorted(le, s[|s| - 1], SortBy(le, s[..|s| - 1]));
    }
  }

  lemma {:induction false} SortByOfSorted<T>(le: (T, T) -> bool, s: seq<T>)
    requires SortedBy(le, s)
    ensures SortBy(le, s) == s
  {
    if s != [] {
      SortByOfSorted(le, s[..|s| - 1]);
      assert s == s[..|s| - 1] + [s[|s| - 1]];
    }
  }

  // ----- sorted views of a set ----------------------------------------------

  /** sorted(s) for a set: the one ascending list without repetition of its elements. */
  ghost function SortedSet<T(!new)>(le: (T, T) -> bool, s: set<T>): (r: seq<T>)
    ensures multiset(r) == multiset(s)
  {
    if s == {} then []
    else
      var x :| x in s;
      assert multiset(s) == multiset(s - {x}) + multiset{x};
      InsertBy(le, x, SortedSet(le, s - {x}))
  }

  predicate Distinct<T(==)>(s: seq<T>) { forall i, j :: 0 <= i < j < |s| ==> s[i] != s[j] }

  lemma {:induction false} DistinctFromMultiset<T>(r: seq<T>, s: set<T>)
    requires multiset(r) == multiset(s)
    ensures Distinct(r) && |r| == |s| && forall x :: x in r <==> x in s
  {
    assert forall x :: x in r <==> x in multiset(r);
    assert |r| == |multiset(r)| == |multiset(s)| == |s|;
    forall i, j | 0 <= i < j < |r| ensures r[i] != r[j] {
      assert r == r[..j] + r[j..];
      assert r[..j][i] == r[i] && r[j..][0] == r[j];
      assert r[i] in multiset(r[..j]) && r[j] in multiset(r[j..]);
      assert multiset(s)[r[j]] <= 1;
    }
  }

  lemma {:induction false} SortedSetSorted<T(!new)>(le: (T, T) -> bool, s: set<T>)
    requires TotalPreorder(le)
    ensures var r := SortedSet(le, s);
      SortedBy(le, r) && Distinct(r) && |r| == |s| && forall x :: x in r <==> x in s
  {
    DistinctFromMultiset(SortedSet(le, s), s);
    if s != {} {
      var x :| x in s && SortedSet(le, s) == InsertBy(le, x, SortedSet(le, s - {x}));
      SortedSetSorted(le, s - {x});
      InsertBySorted(le, x, SortedSet(le, s - {x}));
    }
  }

  /** An ascending list without repetition is fixed by its elements. */
  lemma {:induction false} AscendingUnique<T(!new)>(le: (T, T) -> bool, a: seq<T>, b: seq<T>)
    requires TotalPreorder(le)
    requires forall x, y :: le(x, y) && le(y, x) ==> x == y
    requires SortedBy(le, a) && Distinct(a) && SortedBy(le, b) && Distinct(b)
    requires forall x :: x in a <==> x in b
    ensures a == b
  {
    assert a != [] ==> a[0] in b;
    assert b != [] ==> b[0] in a;
    if a != [] && b != [] {
      var i :| 0 <= i < |b| && b[i] == a[0];
      var j :| 0 <= j < |a| && a[j] == b[0];
      assert le(a[0], b[0]) && le(b[0], a[0]);
      forall x ensures x in a[1..] <==> x in b[1..] {
        assert x in a <==> x == a[0] || x in a[1..];
        assert x in b <==> x == b[0] || x in b[1..];
      }
      AscendingUnique(le, a[1..], b[1..]);
      assert a == [a[0]] + a[1..] && b == [b[0]] + b[1..];
    }
  }
}
