/** Python's `dict`: a map that remembers insertion order. Overwriting a key
    keeps its place; deleting and re-adding moves it to the end. */
module OrderedDict {
  import opened Sorting

  datatype Dict<K(==, !new), V> = Dict(keys: seq<K>, vals: map<K, V>) {
    ghost predicate Valid() {
      Distinct(keys) && forall k :: k in keys <==> k in vals
    }

    function Put(k: K, v: V): (d: Dict<K, V>) {
      Dict(if k in vals then keys else keys + [k], vals[k := v])
    }

    function Pop(k: K): (d: Dict<K, V>) {
      Dict(Filter(x => x != k, keys), vals - {k})
    }

    lemma PutValid(k: K, v: V)
      requires Valid()
      ensures Put(k, v).Valid()
    {}

    lemma PopValid(k: K)
      requires Valid()
      ensures Pop(k).Valid()
    {
      FilterDistinct(x => x != k, keys);
    }

    lemma EmptyKeys()
      requires Valid()
      ensures keys == [] <==> vals.Keys == {}
    {
      if keys != [] { assert keys[0] in vals; }
      if k :| k in vals { assert k in keys; }
    }

    function Values(): (vs: seq<V>)
      requires Valid()
      ensures |vs| == |keys|
      ensures forall i :: 0 <= i < |keys| ==> keys[i] in vals && vs[i] == vals[keys[i]]
    {
      seq(|keys|, i requires 0 <= i < |keys| => assert keys[i] in vals; vals[keys[i]])
    }
  }

  function Empty<K(==, !new), V>(): Dict<K, V> { Dict([], map[]) }

  /** The listed keys that satisfy `p`, in order: a comprehension over a dict. */
  function Filter<T(!new)>(p: T -> bool, s: seq<T>): (r: seq<T>)
    ensures forall x :: x in r <==> x in s && p(x)
  {
    if s == [] then []
    else
      assert s == [s[0]] + s[1..];
      (if p(s[0]) then [s[0]] else []) + Filter(p, s[1..])
  }

  lemma FilterDistinct<T(!new)>(p: T -> bool, s: seq<T>)
    requires Distinct(s)
    ensures Distinct(Filter(p, s))
  {
    if s == [] {
    } else {
      FilterDistinct(p, s[1..]);
    }
  }

  lemma FilterFirst<T(!new)>(p: T -> bool, s: seq<T>)
    requires s != []
    ensures multiset(Filter(p, s)) == (if p(s[0]) then multiset{s[0]} else multiset{}) + multiset(Filter(p, s[1..]))
    ensures multiset(s) == multiset{s[0]} + multiset(s[1..])
  {
    assert s == [s[0]] + s[1..];
  }

  /** A filter and its opposite share the elements out. */
  lemma {:induction false} FilterSplits<T(!new)>(p: T -> bool, q: T -> bool, s: seq<T>)
    requires forall x :: q(x) <==> !p(x)
    ensures multiset(Filter(p, s)) + multiset(Filter(q, s)) == multiset(s)
  {
    if s == [] {
    } else {
      FilterSplits(p, q, s[1..]);
      FilterFirst(p, s);
      FilterFirst(q, s);
      hide Filter;
    }
  }

  // ---------------------------------------------------------------- what a filter keeps

  /** The positions of the elements that satisfy `p`. */
  function Positions<T(!new)>(p: T -> bool, s: seq<T>): set<nat> {
    set i: nat | i < |s| && p(s[i])
  }

  /** `at` lists those positions, in order. */
  ghost predicate Lists<T(!new)>(p: T -> bool, s: seq<T>, at: seq<nat>) {
    && (forall i, j :: 0 <= i < j < |at| ==> at[i] < at[j])
    && forall i: nat :: i in at <==> i < |s| && p(s[i])
  }

  function Later(at: seq<nat>): (later: seq<nat>)
    ensures |later| == |at| && forall i :: 0 <= i < |at| ==> later[i] == at[i] + 1
  {
    seq(|at|, i requires 0 <= i < |at| => at[i] + 1)
  }

  lemma ListsLater<T(!new)>(p: T -> bool, s: seq<T>, rest: seq<nat>)
    requires s != [] && Lists(p, s[1..], rest)
    ensures Lists(p, s, (if p(s[0]) then [0] else []) + Later(rest))
  {
    var later := Later(rest);
    forall k: nat ensures k in later <==> 0 < k < |s| && p(s[k]) {
      if 0 < k < |s| && p(s[k]) {
        assert s[1..][k - 1] == s[k] && k - 1 in rest;
        var i :| 0 <= i < |rest| && rest[i] == k - 1;
        assert later[i] == k;
      }
      if k in later {
        var i :| 0 <= i < |later| && later[i] == k;
        assert rest[i] in rest && s[1..][rest[i]] == s[k];
      }
    }
    hide Later;
  }

  lemma ListsNext<T(!new)>(p: T -> bool, s: seq<T>, before: seq<nat>)
    requires s != [] && Lists(p, s[..|s| - 1], before)
    ensures Lists(p, s, before + if p(s[|s| - 1]) then [|s| - 1] else [])
  {
    var n := |s| - 1;
    var at := before + if p(s[n]) then [n] else [];
    forall i: nat ensures i in at <==> i < |s| && p(s[i]) {
      if i < n { assert s[..n][i] == s[i]; }
    }
    forall i, j | 0 <= i < j < |at| ensures at[i] < at[j] {
      if j == |before| { assert before[i] in before; }
    }
  }

  lemma KeptLater<T(!new)>(p: T -> bool, s: seq<T>, rest: seq<nat>, tail: seq<T>)
    requires s != [] && |rest| == |tail| && forall i :: 0 <= i < |rest| ==> rest[i] < |s| - 1 && tail[i] == s[1..][rest[i]]
    ensures var at, kept := (if p(s[0]) then [0] else []) + Later(rest), (if p(s[0]) then [s[0]] else []) + tail;
      |at| == |kept| && forall i :: 0 <= i < |at| ==> at[i] < |s| && kept[i] == s[at[i]]
  {
  }

  /** A filter keeps the elements at those positions, in order. */
  lemma {:induction false} FilterAt<T(!new)>(p: T -> bool, s: seq<T>) returns (at: seq<nat>)
    ensures Lists(p, s, at) && |at| == |Filter(p, s)|
    ensures forall i :: 0 <= i < |at| ==> at[i] < |s| && Filter(p, s)[i] == s[at[i]]
  {
    if s == [] {
      at := [];
    } else {
      hide Lists, Later;
      var rest := FilterAt(p, s[1..]);
      at := (if p(s[0]) then [0] else []) + Later(rest);
      ListsLater(p, s, rest);
      KeptLater(p, s, rest, Filter(p, s[1..]));
    }
  }

  lemma FilterCount<T(!new)>(p: T -> bool, s: seq<T>)
    ensures |Filter(p, s)| == |Positions(p, s)|
  {
    var at := FilterAt(p, s);
    ListsAll(p, s, at);
  }

  lemma ListsAll<T(!new)>(p: T -> bool, s: seq<T>, at: seq<nat>)
    requires Lists(p, s, at)
    ensures |at| == |Positions(p, s)|
  {
    ListedOnce(at, Positions(p, s));
  }

  lemma {:induction false} ListedOnce(at: seq<nat>, s: set<nat>)
    requires (forall i, j :: 0 <= i < j < |at| ==> at[i] < at[j]) && forall k :: k in at <==> k in s
    ensures |at| == |s|
  {
    if at == [] {
      assert s == {};
    } else {
      var n := |at| - 1;
      assert at == at[..n] + [at[n]] && at[n] !in at[..n];
      ListedOnce(at[..n], s - {at[n]});
    }
  }
}
