/** Campaign detection: incidents linked by similar DNA, clustered into connected
    components. */
module Campaigns {
  import opened Options
  import opened Sorting
  import opened OrderedDict
  import opened State
  import opened Rounding
  import opened Fingerprints
  import opened UnionFinds

  const LINK_THRESHOLD := 0.30

  datatype Package = Package(id: string, dna: Option<Dna>, verdict: Verdict) {
    predicate Actionable() { dna.Some? && (verdict.Malicious? || verdict.Suspicious?) }
  }

  datatype Cluster = Cluster(
    campaignId: string,
    members: seq<string>,
    size: nat,
    sharedInfrastructure: seq<string>,
    sharedMalware: seq<string>,
    verdict: Verdict)

  /** The actionable incidents by identifier; a repeated identifier keeps its last
      package. */
  type Incidents = map<string, Package>

  ghost predicate WellIdentified(byId: Incidents) {
    forall id :: id in byId ==> byId[id].id == id && byId[id].Actionable()
  }

  function ById(packages: seq<Package>): Dict<string, Package> {
    if packages == [] then Empty()
    else
      var rest, p := ById(packages[..|packages| - 1]), packages[|packages| - 1];
      if p.Actionable() then rest.Put(p.id, p) else rest
  }

  /** An incident that can be clustered: it has a fingerprint and was found harmful. */
  ghost predicate Counts(p: Package, id: string) {
    p.id == id && p.dna != None && p.verdict != Benign && p.verdict != Unknown
  }

  /** Of the packages that count under an identifier the last stays. */
  lemma {:induction false} ByIdIs(packages: seq<Package>, id: string, i: nat)
    requires i <= |packages| && forall j :: i <= j < |packages| ==> !Counts(packages[j], id)
    ensures i == 0 ==> id !in ById(packages).vals
    ensures i > 0 && Counts(packages[i - 1], id) ==> id in ById(packages).vals && ById(packages).vals[id] == packages[i - 1]
  {
    if i < |packages| {
      var n := |packages| - 1;
      assert !Counts(packages[n], id);
      ByIdIs(packages[..n], id, i);
    }
  }

  // ---------------------------------------------------------------- the reference

  predicate Similar(byId: Incidents, a: string, b: string) {
    && a in byId && b in byId && a != b && byId[a].dna.Some? && byId[b].dna.Some?
    && Similarity(byId[a].dna.value, byId[b].dna.value) >= LINK_THRESHOLD
  }

  /** Two incidents with features of one kind only, `k` in common, `m` and `n` of one alone,
      are linked exactly when the common part, to the nearest ten-thousandth, is 0.3. */
  lemma LinkExact(byId: Incidents, a: string, b: string, kind: string)
    requires a in byId && b in byId && a != b && byId[a].dna.Some? && byId[b].dna.Some?
    requires OnlyOf(byId[a].dna.value, byId[b].dna.value, kind)
    ensures var fa, fb := byId[a].dna.value.Features(kind), byId[b].dna.value.Features(kind);
      var k, m, n := |fa * fb|, |fa - fb|, |fb - fa|;
      k + m + n > 0 && (Similar(byId, a, b) <==> 20000 * k >= 5999 * (k + m + n))
  {
    var fa, fb := byId[a].dna.value.Features(kind), byId[b].dna.value.Features(kind);
    OneDimension(byId[a].dna.value, byId[b].dna.value, kind);
    SomeFeature(fa, fb);
    hide OnlyOf, Similarity, Dna.Features, Common;
    var k, s := |fa * fb|, |fa * fb| + |fa - fb| + |fb - fa|;
    ThresholdOf(k, s);
  }

  lemma SomeFeature(fa: set<string>, fb: set<string>)
    requires fa + fb != {}
    ensures |fa * fb| + |fa - fb| + |fb - fa| > 0
    ensures Common(fa, fb) == |fa * fb| as real / (|fa * fb| + |fa - fb| + |fb - fa|) as real
  {
    var x :| x in fa + fb;
    assert x in fa * fb || x in fa - fb || x in fb - fa;
  }

  lemma ThresholdOf(k: nat, s: nat)
    requires s > 0
    ensures Nearest(10000.0 * (k as real / s as real)) >= 3000 <==> 20000 * k >= 5999 * s
  {
    var x := 10000.0 * (k as real / s as real);
    NearestMonotone(2999.5, if x >= 2999.5 then x else 2999.5);
    NearestWithin(x);
    Multiplied(k as real, s as real, 10000.0, 2999.5);
    hide Nearest;
  }

  lemma Multiplied(k: real, s: real, c: real, bound: real)
    requires s > 0.0
    ensures c * (k / s) >= bound <==> c * k >= bound * s
  {
    var q := k / s;
    assert q * s == k;
    assert c * k == c * q * s;
    ScaledBoth(c * q, bound, s);
  }

  lemma ScaledBoth(x: real, y: real, s: real)
    requires s > 0.0
    ensures x >= y <==> x * s >= y * s
  {
  }

  type Links = set<(string, string)>

  predicate Adjacent(links: Links, a: string, b: string) { (a, b) in links || (b, a) in links }

  ghost predicate Chain(links: Links, path: seq<string>, a: string, b: string) {
    && path != [] && path[0] == a && path[|path| - 1] == b
    && forall i :: 0 <= i < |path| - 1 ==> Adjacent(links, path[i], path[i + 1])
  }

  ghost predicate Joined(links: Links, a: string, b: string) {
    exists path :: Chain(links, path, a, b)
  }

  function AllLinks(byId: Incidents): Links {
    set a, b | a in byId && b in byId && Similar(byId, a, b) :: (a, b)
  }

  /** A chain of pairwise similar incidents joins the two. */
  ghost predicate Connected(byId: Incidents, a: string, b: string) {
    Joined(AllLinks(byId), a, b)
  }

  lemma JoinedSelf(links: Links, a: string)
    ensures Joined(links, a, a)
  {
    assert Chain(links, [a], a, a);
  }

  lemma JoinedTransitive(links: Links, a: string, b: string, c: string)
    requires Joined(links, a, b) && Joined(links, b, c)
    ensures Joined(links, a, c)
  {
    var p :| Chain(links, p, a, b);
    var q :| Chain(links, q, b, c);
    var r := p + q[1..];
    forall i | 0 <= i < |r| - 1 ensures Adjacent(links, r[i], r[i + 1]) {
      if i < |p| - 1 {
        assert r[i] == p[i] && r[i + 1] == p[i + 1];
      } else {
        var k := i - (|p| - 1);
        assert r[i] == q[k] && r[i + 1] == q[k + 1];
      }
    }
    assert Chain(links, r, a, c);
  }

  lemma JoinedMore(links: Links, more: Links, a: string, b: string)
    requires Joined(links, a, b) && forall x, y :: Adjacent(links, x, y) ==> Adjacent(more, x, y)
    ensures Joined(more, a, b)
  {
    var p :| Chain(links, p, a, b);
    assert Chain(more, p, a, b);
  }

  lemma JoinedEdge(links: Links, a: string, b: string)
    requires Adjacent(links, a, b)
    ensures Joined(links, a, b)
  {
    assert Chain(links, [a, b], a, b);
  }

  // ---------------------------------------------------------------- classes

  /** The union-find's classes are the components of the links processed so far. */
  ghost predicate Classes(roots: map<string, string>, links: Links) {
    && (forall x, y :: (x, y) in links ==> x in roots && y in roots)
    && (forall x, y :: x in roots && y in roots ==> (roots[x] == roots[y] <==> Joined(links, x, y)))
  }

  lemma {:induction false} ChainSameRoot(roots: map<string, string>, links: Links, path: seq<string>, a: string, b: string)
    requires forall x, y :: (x, y) in links ==> x in roots && y in roots && roots[x] == roots[y]
    requires Chain(links, path, a, b) && a in roots
    ensures b in roots && roots[a] == roots[b]
  {
    if |path| == 1 {
    } else {
      var c := path[|path| - 2];
      assert Chain(links, path[..|path| - 1], a, c);
      ChainSameRoot(roots, links, path[..|path| - 1], a, c);
      assert Adjacent(links, c, b);
    }
  }

  function Merged(was: map<string, string>, a: string, b: string): map<string, string>
    requires a in was && b in was
  {
    map x | x in was :: if was[x] == was[a] then was[b] else was[x]
  }

  /** Merging the classes of a new link's ends keeps classes and components equal. */
  lemma MergeJoins(roots: map<string, string>, links: Links, a: string, b: string)
    requires Classes(roots, links) && a in roots && b in roots
    ensures Classes(Merged(roots, a, b), links + {(a, b)})
  {
    var more, merged := links + {(a, b)}, Merged(roots, a, b);
    JoinedEdge(more, a, b);
    JoinedEdge(more, b, a);
    forall x, y | (x, y) in more ensures x in merged && y in merged && merged[x] == merged[y] {
      if (x, y) in links { JoinedEdge(links, x, y); }
    }
    forall x, y | x in roots && y in roots ensures merged[x] == merged[y] <==> Joined(more, x, y) {
      if Joined(more, x, y) {
        var p :| Chain(more, p, x, y);
        ChainSameRoot(merged, more, p, x, y);
      }
      if merged[x] == merged[y] {
        MergedJoined(roots, links, a, b, x, y);
      }
    }
  }

  lemma MergedJoined(roots: map<string, string>, links: Links, a: string, b: string, x: string, y: string)
    requires Classes(roots, links) && a in roots && b in roots && x in roots && y in roots
    requires Merged(roots, a, b)[x] == Merged(roots, a, b)[y]
    ensures Joined(links + {(a, b)}, x, y)
  {
    var more := links + {(a, b)};
    JoinedEdge(more, a, b);
    JoinedEdge(more, b, a);
    hide Joined;
    if roots[x] == roots[y] {
      JoinedMore(links, more, x, y);
    } else if roots[x] == roots[a] {
      JoinedMore(links, more, x, a);
      JoinedMore(links, more, b, y);
      JoinedTransitive(more, x, a, b);
      JoinedTransitive(more, x, b, y);
    } else {
      JoinedMore(links, more, x, b);
      JoinedMore(links, more, a, y);
      JoinedTransitive(more, x, b, a);
      JoinedTransitive(more, x, a, y);
    }
  }

  // ---------------------------------------------------------------- shared features

  function Elements(ids: seq<string>): set<string> { set id | id in ids }

  function FeaturesOf(byId: Incidents, id: string, kind: string): set<string> {
    if id in byId && byId[id].dna.Some? then byId[id].dna.value.Features(kind) else {}
  }

  /** The features at least two members have. */
  function SharedBy(byId: Incidents, members: set<string>, kind: string): set<string> {
    set a, f | a in members && f in FeaturesOf(byId, a, kind)
      && (exists b :: b in members && b != a && f in FeaturesOf(byId, b, kind)) :: f
  }

  /** The incident's first fingerprint of the kind lists the feature. */
  ghost predicate Holds(byId: Incidents, id: string, kind: string, f: string) {
    && id in byId && byId[id].dna.Some?
    && var fps := byId[id].dna.value.fingerprints;
       exists i :: 0 <= i < |fps| && fps[i].kind == kind && f in fps[i].features && forall j :: 0 <= j < i ==> fps[j].kind != kind
  }

  lemma FirstOfKind(fps: seq<Fingerprint>, kind: string) returns (i: nat)
    ensures i <= |fps| && (forall j :: 0 <= j < i ==> fps[j].kind != kind) && (i < |fps| ==> fps[i].kind == kind)
  {
    i := 0;
    while i < |fps| && fps[i].kind != kind
      invariant i <= |fps| && forall j :: 0 <= j < i ==> fps[j].kind != kind
    {
      i := i + 1;
    }
  }

  lemma HoldsIs(byId: Incidents, id: string, kind: string, f: string)
    ensures f in FeaturesOf(byId, id, kind) <==> Holds(byId, id, kind, f)
  {
    if id in byId && byId[id].dna.Some? {
      var fps := byId[id].dna.value.fingerprints;
      var i := FirstOfKind(fps, kind);
      FeaturesAre(fps, kind, i);
      hide FeaturesIn;
    }
  }

  /** A shared feature is one that two different members hold. */
  lemma SharedIs(byId: Incidents, members: set<string>, kind: string, f: string)
    ensures f in SharedBy(byId, members, kind) <==>
      exists a, b :: a in members && b in members && a != b && Holds(byId, a, kind, f) && Holds(byId, b, kind, f)
  {
    forall id ensures f in FeaturesOf(byId, id, kind) <==> Holds(byId, id, kind, f) { HoldsIs(byId, id, kind, f); }
    hide FeaturesOf, Holds;
  }

  function Holders(byId: Incidents, ids: seq<string>, kind: string, f: string): nat {
    if ids == [] then 0
    else Holders(byId, ids[..|ids| - 1], kind, f) + if f in FeaturesOf(byId, ids[|ids| - 1], kind) then 1 else 0
  }

  lemma {:induction false} HoldersCount(byId: Incidents, ids: seq<string>, kind: string, f: string)
    requires Distinct(ids)
    ensures Holders(byId, ids, kind, f) >= 1 <==> exists a :: a in ids && f in FeaturesOf(byId, a, kind)
    ensures Holders(byId, ids, kind, f) >= 2 <==>
      exists a, b :: a in ids && b in ids && a != b && f in FeaturesOf(byId, a, kind) && f in FeaturesOf(byId, b, kind)
  {
    hide FeaturesOf;
    if ids == [] {
    } else {
      var n := |ids| - 1;
      HoldersCount(byId, ids[..n], kind, f);
      assert forall x :: x in ids <==> x in ids[..n] || x == ids[n];
    }
  }

  /** The features present in at least two members, sorted. */
  method Feats(byId: Incidents, ids: seq<string>, kind: string) returns (r: seq<string>)
    requires Distinct(ids)
    ensures IsSortedSet(StringLe, r, SharedBy(byId, Elements(ids), kind))
  {
    hide FeaturesOf, IsSortedSet, TotalPreorder;
    var counts: map<string, nat> := map[];
    for i := 0 to |ids|
      invariant forall f :: f in counts ==> counts[f] == Holders(byId, ids[..i], kind, f)
      invariant forall f :: f !in counts ==> Holders(byId, ids[..i], kind, f) == 0
    {
      assert ids[..i + 1][..i] == ids[..i];
      var s := FeaturesOf(byId, ids[i], kind);
      counts := map f | f in counts.Keys + s :: (if f in counts then counts[f] else 0) + if f in s then 1 else 0;
    }
    assert ids[..|ids|] == ids;
    var shared := set f | f in counts && counts[f] >= 2;
    forall f ensures f in shared <==> f in SharedBy(byId, Elements(ids), kind) {
      HoldersCount(byId, ids, kind, f);
    }
    assert shared == SharedBy(byId, Elements(ids), kind);
    StringOrder();
    r := SortSet(StringLe, shared);
  }

  // ---------------------------------------------------------------- clusters

  /** A cluster is a connected component of at least two incidents; its members are
      sorted, so its identifier is a function of the component. */
  ghost predicate IsCluster(byId: Incidents, hash: seq<string> -> string, c: Cluster) {
    && c.size == |c.members| >= 2
    && IsSortedSet(StringLe, c.members, Elements(c.members))
    && (forall x :: x in c.members ==> x in byId)
    && (forall x, y :: x in c.members && y in byId ==> (y in c.members <==> Connected(byId, x, y)))
    && c.campaignId == "camp:" + hash(c.members)
    && IsSortedSet(StringLe, c.sharedInfrastructure, SharedBy(byId, Elements(c.members), "infrastructure"))
    && IsSortedSet(StringLe, c.sharedMalware, SharedBy(byId, Elements(c.members), "malware"))
    && c.verdict == (if exists x :: x in c.members && x in byId && byId[x].verdict.Malicious? then Malicious else Suspicious)
  }

  /** The clustering of the incidents: every cluster a component, no incident in
      two, none that has a link left out, the largest first. */
  ghost predicate IsClustering(byId: Incidents, hash: seq<string> -> string, clusters: seq<Cluster>) {
    && (forall c :: c in clusters ==> IsCluster(byId, hash, c))
    && (forall i, j, x :: 0 <= i < j < |clusters| && x in clusters[i].members ==> x !in clusters[j].members)
    && (forall x, y :: x in byId && y in byId && x != y && Connected(byId, x, y) ==>
          exists c :: c in clusters && x in c.members && y in c.members)
    && (forall i, j :: 0 <= i < j < |clusters| ==> clusters[i].size >= clusters[j].size)
  }

  lemma SameComponent(byId: Incidents, hash: seq<string> -> string, c: Cluster, d: Cluster, x: string)
    requires IsCluster(byId, hash, c) && IsCluster(byId, hash, d) && x in c.members && x in d.members
    ensures c == d
  {
    forall y ensures y in c.members <==> y in d.members {
      assert y in byId ==> (y in c.members <==> Connected(byId, x, y));
      assert y in byId ==> (y in d.members <==> Connected(byId, x, y));
    }
    assert Elements(c.members) == Elements(d.members);
    hide IsSortedSet, SharedBy, Connected, TotalPreorder, AntiSymmetric;
    StringOrder();
    SortedSetUnique(StringLe, c.members, d.members, Elements(c.members));
    SortedSetUnique(StringLe, c.sharedInfrastructure, d.sharedInfrastructure, SharedBy(byId, Elements(c.members), "infrastructure"));
    SortedSetUnique(StringLe, c.sharedMalware, d.sharedMalware, SharedBy(byId, Elements(c.members), "malware"));
  }

  /** The clusters depend on the incidents alone: two clusterings of the same
      incidents have the same clusters, members, identifiers and shared features. */
  lemma ClusteringUnique(byId: Incidents, hash: seq<string> -> string, p: seq<Cluster>, q: seq<Cluster>, c: Cluster)
    requires IsClustering(byId, hash, p) && IsClustering(byId, hash, q) && c in p
    ensures c in q
  {
    assert IsCluster(byId, hash, c);
    var x, y := c.members[0], c.members[1];
    assert x in c.members && y in c.members && x != y && x in byId && y in byId;
    assert Connected(byId, x, y);
    var d :| d in q && x in d.members && y in d.members;
    SameComponent(byId, hash, c, d, x);
  }

  lemma {:induction false} ByIdAre(packages: seq<Package>)
    requires forall i, j :: 0 <= i < j < |packages| ==> packages[i].id != packages[j].id
    ensures forall p :: p in packages && p.Actionable() ==> p.id in ById(packages).vals && ById(packages).vals[p.id] == p
    ensures forall id :: id in ById(packages).vals ==> ById(packages).vals[id] in packages
    ensures forall id :: id in ById(packages).vals ==> ById(packages).vals[id].Actionable() && ById(packages).vals[id].id == id
  {
    if packages == [] {
    } else {
      var n := |packages| - 1;
      ByIdAre(packages[..n]);
      assert packages == packages[..n] + [packages[n]];
    }
  }

  /** With distinct identifiers the incidents, and so the clusters, do not depend on
      the order the packages come in. */
  lemma OrderIndependent(packages: seq<Package>, shuffled: seq<Package>)
    requires multiset(packages) == multiset(shuffled)
    requires forall i, j :: 0 <= i < j < |packages| ==> packages[i].id != packages[j].id
    requires forall i, j :: 0 <= i < j < |shuffled| ==> shuffled[i].id != shuffled[j].id
    ensures ById(packages).vals == ById(shuffled).vals
  {
    ByIdAre(packages);
    ByIdAre(shuffled);
    forall p ensures p in packages <==> p in shuffled {
      assert p in packages <==> p in multiset(packages);
      assert p in shuffled <==> p in multiset(shuffled);
    }
    var a, b := ById(packages).vals, ById(shuffled).vals;
    hide ById;
    forall id ensures id in a <==> id in b {
      if id in a { assert a[id] in shuffled; }
      if id in b { assert b[id] in packages; }
    }
    forall id | id in a ensures a[id] == b[id] {
      assert a[id] in shuffled;
    }
  }

  // ---------------------------------------------------------------- the engine

  /** So the input order does not show in the result, beyond the order of equally large
      clusters: members, ids, shared features and verdicts are the same. */
  lemma SameClusters(packages: seq<Package>, shuffled: seq<Package>, hash: seq<string> -> string,
                     p: seq<Cluster>, q: seq<Cluster>)
    requires multiset(packages) == multiset(shuffled)
    requires forall i, j :: 0 <= i < j < |packages| ==> packages[i].id != packages[j].id
    requires forall i, j :: 0 <= i < j < |shuffled| ==> shuffled[i].id != shuffled[j].id
    requires IsClustering(ById(packages).vals, hash, p) && IsClustering(ById(shuffled).vals, hash, q)
    ensures forall c :: c in p <==> c in q
  {
    hide IsClustering, ById;
    OrderIndependent(packages, shuffled);
    var byId := ById(packages).vals;
    forall c ensures c in p <==> c in q {
      if c in p { ClusteringUnique(byId, hash, p, q, c); }
      if c in q { ClusteringUnique(byId, hash, q, p, c); }
    }
  }

  lemma {:induction false} ByIdValid(packages: seq<Package>)
    ensures ById(packages).Valid() && WellIdentified(ById(packages).vals)
  {
    if packages == [] {
    } else {
      var n := |packages| - 1;
      ByIdValid(packages[..n]);
      ById(packages[..n]).PutValid(packages[n].id, packages[n]);
    }
  }

  /** The identifiers of `ids` with root `r`, in order. */
  function GroupOf(ids: seq<string>, roots: map<string, string>, r: string): seq<string> {
    if ids == [] then []
    else
      var n := |ids| - 1;
      GroupOf(ids[..n], roots, r) + if ids[n] in roots && roots[ids[n]] == r then [ids[n]] else []
  }

  lemma {:induction false} GroupMembers(ids: seq<string>, roots: map<string, string>, r: string)
    ensures forall x :: x in GroupOf(ids, roots, r) <==> x in ids && x in roots && roots[x] == r
  {
    if ids == [] {
    } else {
      GroupMembers(ids[..|ids| - 1], roots, r);
      assert ids == ids[..|ids| - 1] + [ids[|ids| - 1]];
    }
  }

  lemma {:induction false} GroupDistinct(ids: seq<string>, roots: map<string, string>, r: string)
    requires Distinct(ids)
    ensures Distinct(GroupOf(ids, roots, r))
  {
    if ids == [] {
    } else {
      GroupDistinct(ids[..|ids| - 1], roots, r);
      GroupMembers(ids[..|ids| - 1], roots, r);
    }
  }

  ghost predicate PairsLinked(byId: Incidents, ids: seq<string>, links: Links, i: nat, j: nat) {
    && links <= AllLinks(byId)
    && forall p, q :: 0 <= p < q < |ids| && (p < i || (p == i && q < j)) && Similar(byId, ids[p], ids[q]) ==>
         (ids[p], ids[q]) in links
  }

  lemma PairNext(byId: Incidents, ids: seq<string>, links: Links, i: nat, j: nat)
    requires i < j < |ids| && PairsLinked(byId, ids, links, i, j)
    ensures Similar(byId, ids[i], ids[j]) ==> PairsLinked(byId, ids, links + {(ids[i], ids[j])}, i, j + 1)
    ensures !Similar(byId, ids[i], ids[j]) ==> PairsLinked(byId, ids, links, i, j + 1)
  {
    if Similar(byId, ids[i], ids[j]) { SimilarLinked(byId, ids[i], ids[j]); }
    hide Similar;
  }

  lemma SimilarLinked(byId: Incidents, a: string, b: string)
    requires Similar(byId, a, b)
    ensures (a, b) in AllLinks(byId)
  {
    hide Similarity;
  }

  lemma HasDna(byId: Incidents, ids: seq<string>, i: nat)
    requires WellIdentified(byId) && Elements(ids) == byId.Keys && i < |ids|
    ensures ids[i] in byId && byId[ids[i]].dna.Some?
  {
    assert ids[i] in Elements(ids);
  }

  /** Links pairwise similar incidents in a union-find. */
  method LinkAll(byId: Incidents, ids: seq<string>) returns (uf: UnionFind)
    requires WellIdentified(byId) && Distinct(ids) && Elements(ids) == byId.Keys
    ensures fresh(uf) && uf.Valid() && uf.Roots().Keys == byId.Keys
    ensures Classes(uf.Roots(), AllLinks(byId))
  {
    hide Classes, Similar, PairsLinked, Distinct, UnionFind.Valid, UnionFind.Roots, AllLinks, WellIdentified, Similarity;
    uf := new UnionFind(ids);
    ghost var links: Links := {};
    ClassesStart(uf.Roots(), ids);
    PairsStart(byId, ids);
    for i := 0 to |ids|
      invariant fresh(uf) && uf.Valid() && uf.Roots().Keys == byId.Keys
      invariant Classes(uf.Roots(), links) && PairsLinked(byId, ids, links, i, 0)
    {
      PairsSkip(byId, ids, links, i);
      for j := i + 1 to |ids|
        invariant fresh(uf) && uf.Valid() && uf.Roots().Keys == byId.Keys
        invariant Classes(uf.Roots(), links) && PairsLinked(byId, ids, links, i, j)
      {
        HasDna(byId, ids, i);
        HasDna(byId, ids, j);
        var a, b := byId[ids[i]], byId[ids[j]];
        var overall := ComputeSimilarity(a.dna.value, b.dna.value);
        PairNext(byId, ids, links, i, j);
        SimilarIs(byId, ids, i, j);
        if overall >= LINK_THRESHOLD {
          MergeJoins(uf.Roots(), links, ids[i], ids[j]);
          uf.Union(ids[i], ids[j]);
          links := links + {(ids[i], ids[j])};
        }
      }
      PairsRow(byId, ids, links, i);
    }
    AllPairs(byId, ids, links, uf.Roots());
  }

  lemma SimilarIs(byId: Incidents, ids: seq<string>, i: nat, j: nat)
    requires WellIdentified(byId) && Distinct(ids) && i < j < |ids| && ids[i] in byId && ids[j] in byId
    ensures Similar(byId, ids[i], ids[j]) <==>
      Similarity(byId[ids[i]].dna.value, byId[ids[j]].dna.value) >= LINK_THRESHOLD
  {
    hide Similarity;
  }

  lemma ClassesStart(roots: map<string, string>, ids: seq<string>)
    requires roots == map x | x in ids :: x
    ensures Classes(roots, {})
  {
    forall x, y | x in roots && y in roots ensures roots[x] == roots[y] <==> Joined({}, x, y) {
      if x == y { JoinedSelf({}, x); }
      if Joined({}, x, y) {
        var p :| Chain({}, p, x, y);
        ChainSameRoot(roots, {}, p, x, y);
      }
    }
  }

  lemma PairsStart(byId: Incidents, ids: seq<string>)
    ensures PairsLinked(byId, ids, {}, 0, 0)
  {
    hide Similar;
  }

  lemma PairsSkip(byId: Incidents, ids: seq<string>, links: Links, i: nat)
    requires PairsLinked(byId, ids, links, i, 0)
    ensures PairsLinked(byId, ids, links, i, i + 1)
  {
    hide Similar;
  }

  lemma PairsRow(byId: Incidents, ids: seq<string>, links: Links, i: nat)
    requires PairsLinked(byId, ids, links, i, |ids|)
    ensures PairsLinked(byId, ids, links, i + 1, 0)
  {
    hide Similar;
  }

  lemma SimilarSymmetric(byId: Incidents, a: string, b: string)
    ensures Similar(byId, a, b) <==> Similar(byId, b, a)
  {
    if a in byId && b in byId && byId[a].dna.Some? && byId[b].dna.Some? {
      SimilarityBounds(byId[a].dna.value, byId[b].dna.value);
    }
  }

  lemma AdjacentBoth(byId: Incidents, ids: seq<string>, links: Links, x: string, y: string)
    requires PairsLinked(byId, ids, links, |ids|, 0) && Elements(ids) == byId.Keys
    ensures Adjacent(links, x, y) <==> Adjacent(AllLinks(byId), x, y)
  {
    SimilarSymmetric(byId, x, y);
    LinkSimilar(byId, x, y);
    LinkSimilar(byId, y, x);
    hide Similar, AllLinks;
    if Similar(byId, x, y) {
      SimilarKnown(byId, x, y);
      assert x in Elements(ids) && y in Elements(ids);
      var p :| 0 <= p < |ids| && ids[p] == x;
      var q :| 0 <= q < |ids| && ids[q] == y;
      assert p < q || q < p;
    }
  }

  lemma LinkSimilar(byId: Incidents, x: string, y: string)
    ensures (x, y) in AllLinks(byId) <==> Similar(byId, x, y)
  {
    hide Similarity;
  }

  lemma SimilarKnown(byId: Incidents, x: string, y: string)
    requires Similar(byId, x, y)
    ensures x in byId && y in byId && x != y
  {}

  /** When every pair has been compared, the links join what similarity joins. */
  lemma AllPairs(byId: Incidents, ids: seq<string>, links: Links, roots: map<string, string>)
    requires PairsLinked(byId, ids, links, |ids|, 0) && Elements(ids) == byId.Keys
    requires Classes(roots, links) && roots.Keys == byId.Keys
    ensures Classes(roots, AllLinks(byId))
  {
    var all := AllLinks(byId);
    AllLinksKnown(byId);
    hide Joined, AllLinks, PairsLinked, Adjacent, Elements;
    forall x, y ensures Adjacent(links, x, y) <==> Adjacent(all, x, y) {
      AdjacentBoth(byId, ids, links, x, y);
    }
    forall x, y | x in roots && y in roots ensures Joined(links, x, y) <==> Joined(all, x, y) {
      if Joined(links, x, y) { JoinedMore(links, all, x, y); }
      if Joined(all, x, y) { JoinedMore(all, links, x, y); }
    }
  }

  lemma AllLinksKnown(byId: Incidents)
    ensures forall x, y :: (x, y) in AllLinks(byId) ==> x in byId && y in byId
  {}

  predicate BySize(a: Cluster, b: Cluster) { a.size >= b.size }

  method BuildCluster(byId: Incidents, hash: seq<string> -> string, ids: seq<string>) returns (c: Cluster)
    requires Distinct(ids) && |ids| >= 2 && forall x :: x in ids ==> x in byId
    requires forall x, y :: x in ids && y in byId ==> (y in ids <==> Connected(byId, x, y))
    ensures IsCluster(byId, hash, c) && forall x :: x in c.members <==> x in ids
  {
    hide SharedBy, Connected;
    StringOrder();
    SortCorrect(StringLe, ids);
    SortKeepsDistinct(StringLe, ids);
    var members := Sort(StringLe, ids);
    assert Elements(members) == Elements(ids);
    var infrastructure := Feats(byId, ids, "infrastructure");
    var malware := Feats(byId, ids, "malware");
    var worst := if exists x :: x in ids && x in byId && byId[x].verdict.Malicious? then Malicious else Suspicious;
    c := Cluster("camp:" + hash(members), members, |ids|, infrastructure, malware, worst);
  }

  ghost predicate Grouped(groups: Dict<string, seq<string>>, ids: seq<string>, roots: map<string, string>) {
    && groups.Valid()
    && (forall r :: r in groups.vals ==> groups.vals[r] == GroupOf(ids, roots, r))
    && (forall r :: r !in groups.vals ==> GroupOf(ids, roots, r) == [])
  }

  lemma GroupOfNext(ids: seq<string>, roots: map<string, string>, i: nat, q: string)
    requires i < |ids| && ids[i] in roots
    ensures GroupOf(ids[..i + 1], roots, q) == GroupOf(ids[..i], roots, q) + if roots[ids[i]] == q then [ids[i]] else []
    ensures roots[ids[i]] != q ==> GroupOf(ids[..i + 1], roots, q) == GroupOf(ids[..i], roots, q)
  {
    assert ids[..i + 1][..i] == ids[..i];
  }

  lemma GroupNext(groups: Dict<string, seq<string>>, ids: seq<string>, roots: map<string, string>, i: nat)
    requires i < |ids| && ids[i] in roots && Grouped(groups, ids[..i], roots)
    ensures var r := roots[ids[i]];
      Grouped(groups.Put(r, (if r in groups.vals then groups.vals[r] else []) + [ids[i]]), ids[..i + 1], roots)
  {
    var r := roots[ids[i]];
    var group := (if r in groups.vals then groups.vals[r] else []) + [ids[i]];
    groups.PutValid(r, group);
    var after := groups.Put(r, group);
    assert after.vals == groups.vals[r := group];
    hide Dict.Valid, Dict.Put, GroupOf;
    GroupOfNext(ids, roots, i, r);
    forall q | q in after.vals ensures after.vals[q] == GroupOf(ids[..i + 1], roots, q) {
      GroupOfNext(ids, roots, i, q);
    }
    forall q | q !in after.vals ensures GroupOf(ids[..i + 1], roots, q) == [] {
      GroupOfNext(ids, roots, i, q);
    }
  }

  lemma GroupedCovers(groups: Dict<string, seq<string>>, ids: seq<string>, roots: map<string, string>)
    requires Grouped(groups, ids, roots) && roots.Keys == Elements(ids)
    ensures forall x :: x in ids ==> x in roots && roots[x] in groups.vals
  {
    forall x | x in ids ensures x in roots && roots[x] in groups.vals {
      assert x in Elements(ids);
      GroupMembers(ids, roots, roots[x]);
      assert x in GroupOf(ids, roots, roots[x]);
    }
  }

  lemma GroupStart(roots: map<string, string>)
    ensures Grouped(Empty(), [], roots)
  {}

  /** Collects the identifiers by representative, in order of first appearance. */
  method GroupByRoot(uf: UnionFind, ids: seq<string>) returns (groups: Dict<string, seq<string>>)
    requires uf.Valid() && uf.Roots().Keys == Elements(ids)
    modifies uf
    ensures uf.Valid() && uf.Roots() == old(uf.Roots())
    ensures Grouped(groups, ids, uf.Roots())
  {
    hide UnionFind.Valid, UnionFind.Roots, Grouped;
    groups := Empty();
    ghost var roots := uf.Roots();
    GroupStart(roots);
    assert ids[..0] == [];
    for i := 0 to |ids|
      invariant uf.Valid() && uf.Roots() == roots
      invariant Grouped(groups, ids[..i], roots)
    {
      assert ids[i] in Elements(ids);
      GroupNext(groups, ids, roots, i);
      var r := uf.Find(ids[i]);
      groups := groups.Put(r, (if r in groups.vals then groups.vals[r] else []) + [ids[i]]);
    }
    assert ids[..|ids|] == ids;
  }

  /** Clusters the incidents that share attacker DNA. */
  method ClusterIncidents(packages: seq<Package>, hash: seq<string> -> string) returns (clusters: seq<Cluster>)
    ensures IsClustering(ById(packages).vals, hash, clusters)
  {
    hide IsCluster, Connected, Distinct, Classes, AllLinks, UnionFind.Valid, UnionFind.Roots, WellIdentified;
    hide Grouped, Found, ById, IsClustering;
    var incidents := ById(packages);
    ByIdValid(packages);
    var byId, ids := incidents.vals, incidents.keys;
    IdsAre(incidents);
    var uf := LinkAll(byId, ids);
    ghost var roots := uf.Roots();
    var groups := GroupByRoot(uf, ids);
    var found: seq<Cluster> := [];
    ghost var reps: seq<string> := [];
    FoundStart(byId, hash, ids, roots, groups.keys);
    for i := 0 to |groups.keys|
      invariant Found(byId, hash, ids, roots, groups.keys, i, found, reps)
    {
      GroupKey(groups, ids, roots, i);
      var r := groups.keys[i];
      var members := groups.vals[r];
      FoundSkip(byId, hash, ids, roots, groups.keys, i, found, reps);
      if |members| >= 2 {
        GroupIsComponent(byId, ids, roots, r);
        var c := BuildCluster(byId, hash, members);
        FoundNext(byId, hash, ids, roots, groups.keys, i, found, reps, c);
        found, reps := found + [c], reps + [r];
      }
    }
    CoverAll(byId, ids, roots, groups, hash, found, reps);
    clusters := Sort(BySize, found);
    SortedClustering(byId, hash, found);
  }

  /** The clusters built from the first `i` groups; `reps` are their representatives. */
  ghost predicate Found(byId: Incidents, hash: seq<string> -> string, ids: seq<string>, roots: map<string, string>,
                        keys: seq<string>, i: nat, found: seq<Cluster>, reps: seq<string>) {
    && i <= |keys| && |reps| == |found|
    && (forall k :: 0 <= k < |found| ==> IsCluster(byId, hash, found[k]))
    && (forall k, x :: 0 <= k < |found| ==> (x in found[k].members <==> x in GroupOf(ids, roots, reps[k])))
    && (forall k :: 0 <= k < |reps| ==> reps[k] in keys[..i])
    && (forall j, k :: 0 <= j < k < |reps| ==> reps[j] != reps[k])
    && (forall j :: 0 <= j < i && |GroupOf(ids, roots, keys[j])| >= 2 ==> keys[j] in reps)
  }

  lemma FoundStart(byId: Incidents, hash: seq<string> -> string, ids: seq<string>, roots: map<string, string>, keys: seq<string>)
    ensures Found(byId, hash, ids, roots, keys, 0, [], [])
  {}

  lemma FoundSkip(byId: Incidents, hash: seq<string> -> string, ids: seq<string>, roots: map<string, string>,
                  keys: seq<string>, i: nat, found: seq<Cluster>, reps: seq<string>)
    requires i < |keys| && Found(byId, hash, ids, roots, keys, i, found, reps)
    ensures |GroupOf(ids, roots, keys[i])| < 2 ==> Found(byId, hash, ids, roots, keys, i + 1, found, reps)
  {
    hide IsCluster, GroupOf;
    assert keys[..i + 1] == keys[..i] + [keys[i]];
  }

  lemma FoundNext(byId: Incidents, hash: seq<string> -> string, ids: seq<string>, roots: map<string, string>,
                  keys: seq<string>, i: nat, found: seq<Cluster>, reps: seq<string>, c: Cluster)
    requires i < |keys| && Found(byId, hash, ids, roots, keys, i, found, reps)
    requires keys[i] !in keys[..i] && IsCluster(byId, hash, c)
    requires forall x :: x in c.members <==> x in GroupOf(ids, roots, keys[i])
    ensures Found(byId, hash, ids, roots, keys, i + 1, found + [c], reps + [keys[i]])
  {
    hide IsCluster, GroupOf;
    assert keys[..i + 1] == keys[..i] + [keys[i]];
  }

  lemma IdsAre(incidents: Dict<string, Package>)
    requires incidents.Valid()
    ensures Distinct(incidents.keys) && Elements(incidents.keys) == incidents.vals.Keys
  {}

  lemma GroupKey(groups: Dict<string, seq<string>>, ids: seq<string>, roots: map<string, string>, i: nat)
    requires Grouped(groups, ids, roots) && i < |groups.keys|
    ensures groups.keys[i] in groups.vals && groups.keys[i] !in groups.keys[..i]
    ensures groups.vals[groups.keys[i]] == GroupOf(ids, roots, groups.keys[i])
  {}

  lemma GroupIsComponent(byId: Incidents, ids: seq<string>, roots: map<string, string>, r: string)
    requires Distinct(ids) && Elements(ids) == byId.Keys && roots.Keys == byId.Keys && Classes(roots, AllLinks(byId))
    ensures var g := GroupOf(ids, roots, r);
      && Distinct(g) && (forall x :: x in g ==> x in byId)
      && (forall x, y :: x in g && y in byId ==> (y in g <==> Connected(byId, x, y)))
  {
    GroupDistinct(ids, roots, r);
    GroupMembers(ids, roots, r);
    hide AllLinks, Joined, Distinct;
    var g := GroupOf(ids, roots, r);
    forall x | x in g ensures x in byId { assert x in Elements(ids); }
    forall x, y | x in g && y in byId ensures y in g <==> Connected(byId, x, y) {
      assert y in Elements(ids);
    }
  }

  /** Before sorting: components, disjoint, and every linked incident in one. */
  ghost predicate IsCover(byId: Incidents, hash: seq<string> -> string, found: seq<Cluster>) {
    && (forall c :: c in found ==> IsCluster(byId, hash, c))
    && (forall i, j, x :: 0 <= i < j < |found| && x in found[i].members ==> x !in found[j].members)
    && (forall x, y :: x in byId && y in byId && x != y && Connected(byId, x, y) ==>
          exists c :: c in found && x in c.members && y in c.members)
  }

  lemma CoverAll(byId: Incidents, ids: seq<string>, roots: map<string, string>, groups: Dict<string, seq<string>>,
                 hash: seq<string> -> string, found: seq<Cluster>, reps: seq<string>)
    requires Elements(ids) == byId.Keys && roots.Keys == byId.Keys && Classes(roots, AllLinks(byId))
    requires Grouped(groups, ids, roots) && Found(byId, hash, ids, roots, groups.keys, |groups.keys|, found, reps)
    ensures IsCover(byId, hash, found)
  {
    hide IsCluster, Connected, Grouped, Found, Classes;
    FoundApart(byId, hash, ids, roots, groups.keys, |groups.keys|, found, reps);
    forall x, y | x in byId && y in byId && x != y && Connected(byId, x, y)
      ensures exists c :: c in found && x in c.members && y in c.members
    {
      LinkedCovered(byId, ids, roots, groups, hash, found, reps, x, y);
    }
  }

  lemma FoundApart(byId: Incidents, hash: seq<string> -> string, ids: seq<string>, roots: map<string, string>,
                   keys: seq<string>, i: nat, found: seq<Cluster>, reps: seq<string>)
    requires Found(byId, hash, ids, roots, keys, i, found, reps)
    ensures forall c :: c in found ==> IsCluster(byId, hash, c)
    ensures forall i, j, x :: 0 <= i < j < |found| && x in found[i].members ==> x !in found[j].members
  {
    hide IsCluster, GroupOf;
    forall i, j, x | 0 <= i < j < |found| && x in found[i].members ensures x !in found[j].members {
      GroupMembers(ids, roots, reps[i]);
      GroupMembers(ids, roots, reps[j]);
    }
  }

  /** Two linked incidents are in the cluster of their common representative. */
  lemma LinkedCovered(byId: Incidents, ids: seq<string>, roots: map<string, string>, groups: Dict<string, seq<string>>,
                      hash: seq<string> -> string, found: seq<Cluster>, reps: seq<string>, x: string, y: string)
    requires Elements(ids) == byId.Keys && roots.Keys == byId.Keys && Classes(roots, AllLinks(byId))
    requires Grouped(groups, ids, roots) && Found(byId, hash, ids, roots, groups.keys, |groups.keys|, found, reps)
    requires x in byId && y in byId && x != y && Connected(byId, x, y)
    ensures exists c :: c in found && x in c.members && y in c.members
  {
    GroupedCovers(groups, ids, roots);
    assert x in Elements(ids) && y in Elements(ids) && roots[x] == roots[y];
    var r := roots[x];
    assert r in groups.keys;
    hide IsCluster, AllLinks, Joined, Grouped, Classes, GroupOf;
    GroupMembers(ids, roots, r);
    TwoElements(GroupOf(ids, roots, r), x, y);
    var j :| 0 <= j < |groups.keys| && groups.keys[j] == r;
    var k :| 0 <= k < |reps| && reps[k] == r;
    assert x in found[k].members && y in found[k].members;
    assert found[k] in found;
  }

  lemma TwoElements<T>(s: seq<T>, x: T, y: T)
    requires x in s && y in s && x != y
    ensures |s| >= 2
  {}

  /** Sorting by size keeps the clusters. */
  lemma SortedClustering(byId: Incidents, hash: seq<string> -> string, found: seq<Cluster>)
    requires IsCover(byId, hash, found)
    ensures IsClustering(byId, hash, Sort(BySize, found))
  {
    hide IsCluster, Connected;
    var clusters := Sort(BySize, found);
    assert TotalPreorder(BySize);
    SortCorrect(BySize, found);
    CoverDistinct(byId, hash, found);
    SortKeepsDistinct(BySize, found);
    hide TotalPreorder;
    forall i, j, x | 0 <= i < j < |clusters| && x in clusters[i].members ensures x !in clusters[j].members {
      assert clusters[i] in found && clusters[j] in found;
      var p :| 0 <= p < |found| && found[p] == clusters[i];
      var q :| 0 <= q < |found| && found[q] == clusters[j];
      assert p < q || q < p;
    }
  }

  lemma CoverDistinct(byId: Incidents, hash: seq<string> -> string, found: seq<Cluster>)
    requires IsCover(byId, hash, found)
    ensures Distinct(found)
  {
    forall i, j | 0 <= i < j < |found| ensures found[i] != found[j] {
      assert found[i] in found && IsCluster(byId, hash, found[i]);
      assert found[i].members[0] in found[i].members;
    }
  }
}
