/** Python's `sorted`, for the three orders the platform sorts by: string order,
    tuples of strings and tuples led by a number. */
module Sorting {

  ghost predicate TotalPreorder<T(!new)>(le: (T, T) -> bool) {
    && (forall x, y :: le(x, y) || le(y, x))
    && (forall x, y, z :: le(x, y) && le(y, z) ==> le(x, z))
  }

  ghost predicate Reflexive<T(!new)>(le: (T, T) -> bool) {
    forall x :: le(x, x)
  }

  ghost predicate AntiSymmetric<T(!new)>(le: (T, T) -> bool) {
    forall x, y :: le(x, y) && le(y, x) ==> x == y
  }

  ghost predicate Sorted<T>(le: (T, T) -> bool, s: seq<T>) {
    forall i, j :: 0 <= i < j < |s| ==> le(s[i], s[j])
  }

  lemma NoElement<T>(s: seq<T>)
    ensures s != [] ==> exists y :: y in s
  {
    if s != [] {
      assert s[0] in s;
    }
  }

  function Insert<T>(le: (T, T) -> bool, x: T, s: seq<T>): seq<T> {
    if s == [] || le(x, s[0]) then [x] + s else [s[0]] + Insert(le, x, s[1..])
  }

  /** A stable sort: equal elements keep their order. */
  function Sort<T>(le: (T, T) -> bool, s: seq<T>): seq<T> {
    if s == [] then [] else Insert(le, s[0], Sort(le, s[1..]))
  }

  lemma {:induction false} InsertMultiset<T>(le: (T, T) -> bool, x: T, s: seq<T>)
    ensures multiset(Insert(le, x, s)) == multiset{x} + multiset(s)
  {
    if s == [] || le(x, s[0]) {
    } else {
      assert s == [s[0]] + s[1..];
      InsertMultiset(le, x, s[1..]);
    }
  }

  lemma {:induction false} InsertSorted<T(!new)>(le: (T, T) -> bool, x: T, s: seq<T>)
    requires TotalPreorder(le) && Sorted(le, s)
    ensures Sorted(le, Insert(le, x, s))
  {
    if s == [] {
    } else if le(x, s[0]) {
      forall j | 0 <= j < |s| ensures le(x, s[j]) {
        if j > 0 { assert le(s[0], s[j]); }
      }
    } else {
      InsertSorted(le, x, s[1..]);
      InsertMultiset(le, x, s[1..]);
      var r := Insert(le, x, s[1..]);
      assert Sorted(le, r);
      forall i | 0 <= i < |r| ensures le(s[0], r[i]) {
        assert r[i] in multiset(r);
        assert r[i] == x || r[i] in s[1..];
      }
    }
  }

  /** `sorted` returns a sorted rearrangement of its argument. */
  lemma {:induction false} SortCorrect<T(!new)>(le: (T, T) -> bool, s: seq<T>)
    requires TotalPreorder(le)
    ensures Sorted(le, Sort(le, s))
    ensures multiset(Sort(le, s)) == multiset(s)
    ensures |Sort(le, s)| == |s|
    ensures forall x :: x in Sort(le, s) <==> x in s
  {
    if s == [] {
    } else {
      assert s == [s[0]] + s[1..];
      SortCorrect(le, s[1..]);
      InsertSorted(le, s[0], Sort(le, s[1..]));
      InsertMultiset(le, s[0], Sort(le, s[1..]));
    }
    assert forall x :: x in Sort(le, s) <==> x in multiset(Sort(le, s));
    assert forall x :: x in s <==> x in multiset(s);
    assert |Sort(le, s)| == |multiset(Sort(le, s))| == |multiset(s)| == |s|;
  }

  lemma FirstIsLeast<T(!new)>(le: (T, T) -> bool, s: seq<T>, x: T)
    requires Reflexive(le) && Sorted(le, s) && x in s
    ensures le(s[0], x)
  {
    var i :| 0 <= i < |s| && s[i] == x;
    if i > 0 { assert le(s[0], s[i]); }
  }

  lemma TailMultiset<T>(s: seq<T>)
    requires s != []
    ensures s == [s[0]] + s[1..]
    ensures multiset(s[1..]) == multiset(s) - multiset{s[0]}
  {
    assert s == [s[0]] + s[1..];
  }

  /** Over a total order the sorted arrangement of a collection is unique, so
      the result does not depend on the order the collection was listed in. */
  lemma {:induction false} SortedUnique<T(!new)>(le: (T, T) -> bool, a: seq<T>, b: seq<T>)
    requires Reflexive(le) && AntiSymmetric(le)
    requires Sorted(le, a) && Sorted(le, b) && multiset(a) == multiset(b)
    ensures a == b
  {
    if a == [] {
      assert |multiset(b)| == 0;
    } else {
      assert |multiset(b)| == |multiset(a)| == |a|;
      assert a[0] in multiset(b) && b[0] in multiset(a);
      FirstIsLeast(le, a, b[0]);
      FirstIsLeast(le, b, a[0]);
      TailMultiset(a);
      TailMultiset(b);
      SortedUnique(le, a[1..], b[1..]);
    }
  }

  /** Python's order on strings: lexicographic, by code point. */
  predicate StringLe(a: string, b: string) {
    a == "" || (b != "" && (a[0] < b[0] || (a[0] == b[0] && StringLe(a[1..], b[1..]))))
  }

  /** The strings agree up to a place where `a` has the smaller character. */
  predicate SmallerAt(a: string, b: string, i: nat) {
    i < |a| && i < |b| && a[..i] == b[..i] && a[i] < b[i]
  }

  lemma SmallerFirst(a: string, b: string)
    requires a != "" && b != ""
    ensures SmallerAt(a, b, 0) <==> a[0] < b[0]
    ensures forall i: nat :: i > 0 && SmallerAt(a, b, i) ==> a[0] == b[0]
  {
    assert a[..0] == b[..0];
    forall i: nat | i > 0 && SmallerAt(a, b, i) ensures a[0] == b[0] {
      assert a[..i][0] == a[0] && b[..i][0] == b[0];
    }
  }

  lemma SmallerLater(a: string, b: string, i: nat)
    requires a != "" && b != "" && a[0] == b[0]
    ensures SmallerAt(a, b, i + 1) <==> SmallerAt(a[1..], b[1..], i)
  {
    var s, t := a[1..], b[1..];
    if i < |s| && i < |t| {
      assert a[..i + 1] == [a[0]] + s[..i] && b[..i + 1] == [b[0]] + t[..i];
      assert a[..i + 1][1..] == s[..i] && b[..i + 1][1..] == t[..i];
    }
  }

  /** A string comes before its continuations, and before those that are larger where the
      two first differ. */
  lemma {:induction false} StringLeIs(a: string, b: string)
    ensures StringLe(a, b) <==> a <= b || exists i: nat :: SmallerAt(a, b, i)
  {
    if a == "" || b == "" {
    } else {
      SmallerFirst(a, b);
      if a[0] == b[0] {
        var s, t := a[1..], b[1..];
        StringLeIs(s, t);
        assert a <= b <==> s <= t by { assert a == [a[0]] + s && b == [b[0]] + t; }
        forall i: nat ensures SmallerAt(a, b, i + 1) <==> SmallerAt(s, t, i) { SmallerLater(a, b, i); }
        hide SmallerAt;
        if i: nat :| SmallerAt(a, b, i) {
          assert SmallerAt(s, t, i - 1);
        }
        if i: nat :| SmallerAt(s, t, i) {
          assert SmallerAt(a, b, i + 1);
        }
      }
    }
  }

  lemma StringLeReflexive(a: string)
    ensures StringLe(a, a)
  {}

  lemma StringLeAntiSymmetric(a: string, b: string)
    requires StringLe(a, b) && StringLe(b, a)
    ensures a == b
  {
    if a == "" || b == "" {
    } else {
      StringLeAntiSymmetric(a[1..], b[1..]);
      assert a == [a[0]] + a[1..] && b == [b[0]] + b[1..];
    }
  }

  lemma StringLeTransitive(a: string, b: string, c: string)
    requires StringLe(a, b) && StringLe(b, c)
    ensures StringLe(a, c)
  {
    if a == "" || a[0] != b[0] || b[0] != c[0] {
    } else {
      StringLeTransitive(a[1..], b[1..], c[1..]);
    }
  }

  lemma StringLeTotal(a: string, b: string)
    ensures StringLe(a, b) || StringLe(b, a)
  {
    if a == "" || b == "" || a[0] != b[0] {
    } else {
      StringLeTotal(a[1..], b[1..]);
    }
  }

  lemma StringOrder()
    ensures TotalPreorder(StringLe) && AntiSymmetric(StringLe)
  {
    forall a, b ensures StringLe(a, b) || StringLe(b, a) { StringLeTotal(a, b); }
    forall a, b, c | StringLe(a, b) && StringLe(b, c) ensures StringLe(a, c) { StringLeTransitive(a, b, c); }
    forall a, b | StringLe(a, b) && StringLe(b, a) ensures a == b { StringLeAntiSymmetric(a, b); }
  }

  /** `sorted(set)`: the elements of `s`, each once, in order. */
  ghost predicate IsSortedSet<T(!new)>(le: (T, T) -> bool, r: seq<T>, s: set<T>) {
    && Sorted(le, r)
    && Distinct(r)
    && (forall x :: x in r <==> x in s)
  }

  ghost predicate Distinct<T>(s: seq<T>) {
    forall i, j :: 0 <= i < j < |s| ==> s[i] != s[j]
  }

  lemma OnlyElement<T>(s: seq<T>, x: T)
    requires Distinct(s) && x in s && forall y :: y in s ==> y == x
    ensures s == [x]
  {
    assert |s| > 1 ==> s[0] != s[1];
    forall i | 0 <= i < |s| ensures s[i] == x {
      assert s[i] in s;
    }
  }

  lemma DistinctMultiset<T>(s: seq<T>)
    requires Distinct(s)
    ensures forall x :: multiset(s)[x] == if x in s then 1 else 0
  {
    if s == [] {
    } else {
      DistinctMultiset(s[1..]);
      assert s == [s[0]] + s[1..];
    }
  }

  lemma MultisetDistinct<T>(s: seq<T>)
    requires forall x :: x in s ==> multiset(s)[x] == 1
    ensures Distinct(s)
  {
    forall i, j | 0 <= i < j < |s| ensures s[i] != s[j] {
      assert s == s[..j] + s[j..];
      assert s[i] in multiset(s[..j]);
      assert s[j] in multiset(s[j..]);
      assert multiset(s)[s[j]] == multiset(s[..j])[s[j]] + multiset(s[j..])[s[j]];
    }
  }

  lemma SortKeepsDistinct<T(!new)>(le: (T, T) -> bool, s: seq<T>)
    requires TotalPreorder(le) && Distinct(s)
    ensures Distinct(Sort(le, s))
  {
    SortCorrect(le, s);
    DistinctMultiset(s);
    MultisetDistinct(Sort(le, s));
  }

  /** A set has one sorted listing. */
  lemma SortedSetUnique<T(!new)>(le: (T, T) -> bool, a: seq<T>, b: seq<T>, s: set<T>)
    requires TotalPreorder(le) && AntiSymmetric(le)
    requires IsSortedSet(le, a, s) && IsSortedSet(le, b, s)
    ensures a == b
  {
    DistinctMultiset(a);
    DistinctMultiset(b);
    SortedUnique(le, a, b);
  }

  method SortSet<T(==, !new)>(le: (T, T) -> bool, s: set<T>) returns (r: seq<T>)
    requires TotalPreorder(le)
    ensures IsSortedSet(le, r, s)
  {
    var todo, listed := s, [];
    while todo != {}
      invariant todo <= s && Distinct(listed)
      invariant forall x :: x in listed <==> x in s && x !in todo
      decreases todo
    {
      var x :| x in todo;
      todo, listed := todo - {x}, listed + [x];
    }
    SortCorrect(le, listed);
    SortKeepsDistinct(le, listed);
    r := Sort(le, listed);
  }
}
