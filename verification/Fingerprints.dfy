/** Incident DNA: typed feature sets of an incident and their weighted overlap,
    with exact rationals for the floating-point scores. */
module Fingerprints {
  import opened State
  import opened Rounding

  datatype Fingerprint = Fingerprint(kind: string, features: seq<string>)

  datatype Dna = Dna(investigationId: string, fingerprints: seq<Fingerprint>) {
    /** The features of the first fingerprint of a kind; none when there is none. */
    function Features(kind: string): set<string> {
      FeaturesIn(fingerprints, kind)
    }
  }

  function FeaturesIn(fps: seq<Fingerprint>, kind: string): set<string> {
    if fps == [] then {}
    else if fps[0].kind == kind then set f | f in fps[0].features
    else FeaturesIn(fps[1..], kind)
  }

  datatype Dimension = Dimension(kind: string, weight: real)

  /** The atomic dimensions and their weights. */
  const DIMENSIONS := [
    Dimension("infrastructure", 0.30), Dimension("malware", 0.30),
    Dimension("ttp", 0.25), Dimension("identity", 0.15)]

  function Jaccard(a: set<string>, b: set<string>): real
    requires a + b != {}
  {
    |a * b| as real / |a + b| as real
  }

  /** A dimension neither incident has is not comparable. */
  predicate Comparable(a: Dna, b: Dna, i: nat)
    requires i < |DIMENSIONS|
  {
    a.Features(DIMENSIONS[i].kind) + b.Features(DIMENSIONS[i].kind) != {}
  }

  function Share(a: Dna, b: Dna, i: nat): real
    requires i < |DIMENSIONS| && Comparable(a, b, i)
  {
    DIMENSIONS[i].weight * Jaccard(a.Features(DIMENSIONS[i].kind), b.Features(DIMENSIONS[i].kind))
  }

  /** Weighted overlap over the first `n` dimensions, and the weight compared. */
  function Overlap(a: Dna, b: Dna, n: nat): (r: (real, real))
    requires n <= |DIMENSIONS|
  {
    if n == 0 then (0.0, 0.0)
    else
      var (sum, total) := Overlap(a, b, n - 1);
      if !Comparable(a, b, n - 1) then (sum, total)
      else (sum + Share(a, b, n - 1), total + DIMENSIONS[n - 1].weight)
  }

  /** `round(x, 4)`: to the nearest ten-thousandth, ties to the even one. */
  function Round4(x: real): real {
    Nearest(x * 10000.0) as real / 10000.0
  }

  function Similarity(a: Dna, b: Dna): real {
    var (sum, total) := Overlap(a, b, |DIMENSIONS|);
    if total == 0.0 then 0.0 else Round4(sum / total)
  }

  // ---------------------------------------------------------------- properties

  lemma RoundingMonotone(x: real, y: real)
    requires x <= y
    ensures Round4(x) <= Round4(y)
  {
    NearestMonotone(x * 10000.0, y * 10000.0);
  }

  lemma JaccardBounds(a: set<string>, b: set<string>)
    requires a + b != {}
    ensures 0.0 <= Jaccard(a, b) <= 1.0
    ensures Jaccard(a, b) == Jaccard(b, a)
    ensures a == b ==> Jaccard(a, b) == 1.0
  {
    Subset(a * b, a + b);
    assert |a + b| > 0 by { var x :| x in a + b; Subset({x}, a + b); }
    Fraction(|a * b|, |a + b|);
    assert a * b == b * a && a + b == b + a;
    if a == b { assert a * b == a + b; }
  }

  lemma Fraction(p: nat, q: nat)
    requires p <= q && q > 0
    ensures 0.0 <= p as real / q as real <= 1.0 && (p == q ==> p as real / q as real == 1.0)
  {}

  lemma Subset<T>(a: set<T>, b: set<T>)
    requires a <= b
    ensures |a| <= |b|
  {
    Cardinality(a, b);
    assert a + b == b;
  }

  lemma {:induction false} OverlapBounds(a: Dna, b: Dna, n: nat)
    requires n <= |DIMENSIONS|
    ensures 0.0 <= Overlap(a, b, n).0 <= Overlap(a, b, n).1
    ensures Overlap(a, b, n) == Overlap(b, a, n)
    ensures a == b ==> Overlap(a, b, n).0 == Overlap(a, b, n).1
    ensures Overlap(a, b, n).1 > 0.0 <==> exists i :: 0 <= i < n && Comparable(a, b, i)
  {
    hide Share, Comparable;
    if n == 0 {
    } else {
      OverlapBounds(a, b, n - 1);
      ComparableEither(a, b, n - 1);
      if Comparable(a, b, n - 1) {
        ShareBounds(a, b, n - 1);
      } else if Overlap(a, b, n).1 > 0.0 {
        var i :| 0 <= i < n - 1 && Comparable(a, b, i);
        assert 0 <= i < n && Comparable(a, b, i);
      }
    }
  }

  lemma ComparableEither(a: Dna, b: Dna, i: nat)
    requires i < |DIMENSIONS|
    ensures Comparable(a, b, i) <==> Comparable(b, a, i)
  {
    var fa, fb := a.Features(DIMENSIONS[i].kind), b.Features(DIMENSIONS[i].kind);
    assert fa + fb == fb + fa;
  }

  lemma ShareBounds(a: Dna, b: Dna, i: nat)
    requires i < |DIMENSIONS| && Comparable(a, b, i) && Comparable(b, a, i)
    ensures 0.0 <= Share(a, b, i) <= DIMENSIONS[i].weight && DIMENSIONS[i].weight > 0.0
    ensures Share(a, b, i) == Share(b, a, i)
    ensures a == b ==> Share(a, b, i) == DIMENSIONS[i].weight
  {
    hide Dna.Features, Jaccard;
    var fa, fb := a.Features(DIMENSIONS[i].kind), b.Features(DIMENSIONS[i].kind);
    JaccardBounds(fa, fb);
    Scaled(DIMENSIONS[i].weight, Jaccard(fa, fb));
  }

  lemma Scaled(w: real, j: real)
    requires w > 0.0 && 0.0 <= j <= 1.0
    ensures 0.0 <= w * j <= w
  {}

  lemma QuotientBounds(sum: real, total: real)
    requires 0.0 <= sum <= total && total > 0.0
    ensures 0.0 <= sum / total <= 1.0 && (sum == total ==> sum / total == 1.0)
  {}

  /** Similarity is symmetric and a fraction. */
  lemma SimilarityBounds(a: Dna, b: Dna)
    ensures 0.0 <= Similarity(a, b) <= 1.0
    ensures Similarity(a, b) == Similarity(b, a)
  {
    OverlapBounds(a, b, |DIMENSIONS|);
    var (sum, total) := Overlap(a, b, |DIMENSIONS|);
    hide Overlap, Round4;
    if total > 0.0 {
      QuotientBounds(sum, total);
      RoundingMonotone(0.0, sum / total);
      RoundingMonotone(sum / total, 1.0);
      RoundedEnds();
    }
  }

  lemma RoundedEnds()
    ensures Round4(0.0) == 0.0 && Round4(1.0) == 1.0
  {
    NearestWithin(0.0);
    NearestWithin(10000.0);
  }

  /** An incident is fully similar to itself exactly when it has a feature in some
      atomic dimension; otherwise its similarity to itself is 0. */
  lemma SelfSimilarity(a: Dna)
    ensures Similarity(a, a) == 1.0 <==> exists i :: 0 <= i < |DIMENSIONS| && a.Features(DIMENSIONS[i].kind) != {}
    ensures Similarity(a, a) == 1.0 || Similarity(a, a) == 0.0
  {
    OverlapBounds(a, a, |DIMENSIONS|);
    var (sum, total) := Overlap(a, a, |DIMENSIONS|);
    hide Overlap, Round4;
    RoundedEnds();
    if total > 0.0 { QuotientBounds(sum, total); }
    forall i | 0 <= i < |DIMENSIONS| ensures Comparable(a, a, i) <==> a.Features(DIMENSIONS[i].kind) != {} {
      var fa := a.Features(DIMENSIONS[i].kind);
      assert fa + fa == fa;
    }
    assert (exists i :: 0 <= i < |DIMENSIONS| && Comparable(a, a, i))
      <==> exists i :: 0 <= i < |DIMENSIONS| && a.Features(DIMENSIONS[i].kind) != {};
  }

  // ---------------------------------------------------------------- what is measured

  /** An incident's features of a kind are those of its first fingerprint of the kind. */
  lemma {:induction false} FeaturesAre(fps: seq<Fingerprint>, kind: string, i: nat)
    requires i <= |fps| && forall j :: 0 <= j < i ==> fps[j].kind != kind
    ensures i == |fps| ==> FeaturesIn(fps, kind) == {}
    ensures i < |fps| && fps[i].kind == kind ==> forall f :: f in FeaturesIn(fps, kind) <==> f in fps[i].features
  {
    if i > 0 {
      assert fps[0].kind != kind;
      FeaturesAre(fps[1..], kind, i - 1);
    }
  }

  /** Of the features either incident has, the part that both have: with `k` of both, `m` of
      the first alone and `n` of the second alone, `k / (k + m + n)`. */
  function Common(fa: set<string>, fb: set<string>): real {
    var k, m, n := |fa * fb|, |fa - fb|, |fb - fa|;
    if k + m + n == 0 then 0.0 else k as real / (k + m + n) as real
  }

  function Counted(fa: set<string>, fb: set<string>): real { if fa == {} && fb == {} then 0.0 else 1.0 }

  lemma CommonIs(fa: set<string>, fb: set<string>)
    ensures fa + fb == {} <==> Counted(fa, fb) == 0.0
    ensures fa + fb == {} ==> Common(fa, fb) == 0.0
    ensures fa + fb != {} ==> Common(fa, fb) == Jaccard(fa, fb)
  {
    assert fa + fb == {} <==> fa == {} && fb == {} by {
      if x :| x in fa { assert x in fa + fb; }
      if x :| x in fb { assert x in fa + fb; }
    }
    assert fa + fb == (fa * fb) + (fa - fb) + (fb - fa);
    assert |fa + fb| == |fa * fb| + |fa - fb| + |fb - fa|;
  }

  lemma OverlapIs(a: Dna, b: Dna, n: nat)
    requires n < |DIMENSIONS|
    ensures var fa, fb := a.Features(DIMENSIONS[n].kind), b.Features(DIMENSIONS[n].kind);
      Overlap(a, b, n + 1)
      == (Overlap(a, b, n).0 + DIMENSIONS[n].weight * Common(fa, fb), Overlap(a, b, n).1 + DIMENSIONS[n].weight * Counted(fa, fb))
  {
    CommonIs(a.Features(DIMENSIONS[n].kind), b.Features(DIMENSIONS[n].kind));
    hide Jaccard, Common, Dna.Features;
  }

  lemma OverlapNone(a: Dna, b: Dna)
    ensures Overlap(a, b, 0) == (0.0, 0.0)
  {}

  /** The weighted share of common features, and the weight of what either incident has. */
  function Shared(a: Dna, b: Dna): real {
    0.30 * Common(a.Features("infrastructure"), b.Features("infrastructure"))
    + 0.30 * Common(a.Features("malware"), b.Features("malware"))
    + 0.25 * Common(a.Features("ttp"), b.Features("ttp"))
    + 0.15 * Common(a.Features("identity"), b.Features("identity"))
  }

  function Weighed(a: Dna, b: Dna): real {
    0.30 * Counted(a.Features("infrastructure"), b.Features("infrastructure"))
    + 0.30 * Counted(a.Features("malware"), b.Features("malware"))
    + 0.25 * Counted(a.Features("ttp"), b.Features("ttp"))
    + 0.15 * Counted(a.Features("identity"), b.Features("identity"))
  }

  lemma OverlapAll(a: Dna, b: Dna)
    ensures Overlap(a, b, |DIMENSIONS|) == (Shared(a, b), Weighed(a, b))
  {
    OverlapNone(a, b);
    OverlapIs(a, b, 0);
    OverlapIs(a, b, 1);
    OverlapIs(a, b, 2);
    OverlapIs(a, b, 3);
    hide Common, Counted, Dna.Features, Overlap;
  }

  /** The measure in numbers, to the nearest ten-thousandth. */
  lemma SimilarityIs(a: Dna, b: Dna)
    ensures 10000.0 * Similarity(a, b)
      == if Weighed(a, b) == 0.0 then 0.0 else Nearest(10000.0 * (Shared(a, b) / Weighed(a, b))) as real
  {
    OverlapAll(a, b);
    hide Overlap, Shared, Weighed, Nearest;
  }

  /** Incidents whose only features in the four dimensions are of one kind. */
  ghost predicate OnlyOf(a: Dna, b: Dna, kind: string) {
    && kind in {"infrastructure", "malware", "ttp", "identity"} && a.Features(kind) + b.Features(kind) != {}
    && forall k :: k in {"infrastructure", "malware", "ttp", "identity"} && k != kind ==>
         a.Features(k) == {} && b.Features(k) == {}
  }

  lemma NoneCommon()
    ensures Common({}, {}) == 0.0 && Counted({}, {}) == 0.0
  {
    var none: set<string> := {};
    assert none + none == {};
    CommonIs(none, none);
  }

  /** The other kinds add nothing to either sum. */
  lemma OneWeight(a: Dna, b: Dna, kind: string, x: real)
    requires OnlyOf(a, b, kind) && x == Common(a.Features(kind), b.Features(kind))
    requires Common({}, {}) == 0.0 && Counted({}, {}) == 0.0 && Counted(a.Features(kind), b.Features(kind)) == 1.0
    ensures Weighed(a, b) != 0.0 && Shared(a, b) / Weighed(a, b) == x
  {
    hide Common, Counted, Dna.Features;
    if kind == "infrastructure" {
      assert Shared(a, b) == 0.30 * x && Weighed(a, b) == 0.30;
    } else if kind == "malware" {
      assert Shared(a, b) == 0.30 * x && Weighed(a, b) == 0.30;
    } else if kind == "ttp" {
      assert Shared(a, b) == 0.25 * x && Weighed(a, b) == 0.25;
    } else {
      assert Shared(a, b) == 0.15 * x && Weighed(a, b) == 0.15;
    }
  }

  /** Incidents with features of one kind only are as similar as these features are common. */
  lemma OneDimension(a: Dna, b: Dna, kind: string)
    requires OnlyOf(a, b, kind)
    ensures 10000.0 * Similarity(a, b) == Nearest(10000.0 * Common(a.Features(kind), b.Features(kind))) as real
  {
    var x := Common(a.Features(kind), b.Features(kind));
    NoneCommon();
    CommonIs(a.Features(kind), b.Features(kind));
    SimilarityIs(a, b);
    OneWeight(a, b, kind, x);
    hide Shared, Weighed, Common, Nearest, Similarity, OnlyOf;
  }

  // ---------------------------------------------------------------- the program

  lemma OverlapNext(a: Dna, b: Dna, n: nat)
    requires n < |DIMENSIONS|
    ensures var (sum, total) := Overlap(a, b, n);
      Overlap(a, b, n + 1) ==
      if Comparable(a, b, n) then (sum + Share(a, b, n), total + DIMENSIONS[n].weight) else (sum, total)
  {
    hide Comparable, Share;
  }

  method ComputeSimilarity(a: Dna, b: Dna) returns (overall: real)
    ensures overall == Similarity(a, b)
  {
    hide Jaccard, Dna.Features, Round4, Overlap;
    OverlapNone(a, b);
    var sum, total := 0.0, 0.0;
    for i := 0 to |DIMENSIONS|
      invariant (sum, total) == Overlap(a, b, i)
    {
      OverlapNext(a, b, i);
      var d := DIMENSIONS[i];
      var fa, fb := a.Features(d.kind), b.Features(d.kind);
      if fa + fb == {} {
        continue;
      }
      sum := sum + d.weight * Jaccard(fa, fb);
      total := total + d.weight;
    }
    overall := if total == 0.0 then 0.0 else Round4(sum / total);
  }
}
