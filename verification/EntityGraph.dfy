/** The in-memory entity graph: idempotent writes, and undirected breadth-first
    queries with a capped depth, against walks as the reference. */
module EntityGraph {
  import opened Sorting

  datatype Triple = Triple(src: string, rel: string, dst: string) {
    predicate Touches(n: string) { src == n || dst == n }
    predicate Joins(a: string, b: string) { (src == a && dst == b) || (src == b && dst == a) }
  }

  datatype GraphResult = GraphResult(nodes: seq<string>, edges: seq<Triple>)

  const MAX_DEPTH := 6

  /** A query searches one to six edges deep, whatever depth it asks for. */
  function ClampDepth(depth: int): (d: nat)
    ensures 1 <= depth <= 6 ==> d == depth
    ensures depth < 1 ==> d == 1
    ensures depth > 6 ==> d == 6
  {
    var capped := if depth < MAX_DEPTH then depth else MAX_DEPTH;
    if capped < 1 then 1 else capped
  }

  // ---------------------------------------------------------------- the reference

  /** `walk` leads from `a` to `b` along stored edges, in either direction. */
  ghost predicate Walk(edges: seq<Triple>, walk: seq<Triple>, a: string, b: string) {
    if walk == [] then a == b
    else
      var n := |walk| - 1;
      walk[n] in edges &&
      ((walk[n].dst == b && Walk(edges, walk[..n], a, walk[n].src)) ||
       (walk[n].src == b && Walk(edges, walk[..n], a, walk[n].dst)))
  }

  ghost predicate Within(edges: seq<Triple>, a: string, b: string, n: nat) {
    exists walk :: |walk| <= n && Walk(edges, walk, a, b)
  }

  ghost function Adjacent(edges: seq<Triple>, nodes: set<string>): set<string> {
    (set i | 0 <= i < |edges| && edges[i].src in nodes :: edges[i].dst) +
    (set i | 0 <= i < |edges| && edges[i].dst in nodes :: edges[i].src)
  }

  /** The nodes at distance at most `n` from `a`. */
  ghost function Ball(edges: seq<Triple>, a: string, n: nat): set<string> {
    if n == 0 then {a} else Ball(edges, a, n - 1) + Adjacent(edges, Ball(edges, a, n - 1))
  }

  lemma AdjacentBy(edges: seq<Triple>, nodes: set<string>, a: string, b: string, e: Triple)
    requires e in edges && e.Joins(a, b) && a in nodes
    ensures b in Adjacent(edges, nodes)
  {}

  lemma AdjacentHas(edges: seq<Triple>, nodes: set<string>, b: string) returns (a: string, e: Triple)
    requires b in Adjacent(edges, nodes)
    ensures e in edges && e.Joins(a, b) && a in nodes
  {
    if i :| 0 <= i < |edges| && edges[i].src in nodes && edges[i].dst == b {
      a, e := edges[i].src, edges[i];
    } else {
      var i :| 0 <= i < |edges| && edges[i].dst in nodes && edges[i].src == b;
      a, e := edges[i].dst, edges[i];
    }
  }

  lemma BallGrows(edges: seq<Triple>, a: string, m: nat, n: nat)
    requires m <= n
    ensures Ball(edges, a, m) <= Ball(edges, a, n)
  {
    if m == n {
    } else {
      BallGrows(edges, a, m, n - 1);
    }
  }

  lemma {:induction false} WalkInBall(edges: seq<Triple>, walk: seq<Triple>, a: string, b: string)
    requires Walk(edges, walk, a, b)
    ensures b in Ball(edges, a, |walk|)
  {
    if walk == [] {
    } else {
      var n := |walk| - 1;
      if walk[n].dst == b && Walk(edges, walk[..n], a, walk[n].src) {
        WalkInBall(edges, walk[..n], a, walk[n].src);
        AdjacentBy(edges, Ball(edges, a, n), walk[n].src, b, walk[n]);
      } else {
        WalkInBall(edges, walk[..n], a, walk[n].dst);
        AdjacentBy(edges, Ball(edges, a, n), walk[n].dst, b, walk[n]);
      }
    }
  }

  lemma {:induction false} BallHasWalk(edges: seq<Triple>, a: string, b: string, n: nat) returns (walk: seq<Triple>)
    requires b in Ball(edges, a, n)
    ensures |walk| <= n && Walk(edges, walk, a, b)
    decreases n
  {
    if n == 0 {
      walk := [];
    } else if b in Ball(edges, a, n - 1) {
      walk := BallHasWalk(edges, a, b, n - 1);
    } else {
      var c, e := AdjacentHas(edges, Ball(edges, a, n - 1), b);
      var prefix := BallHasWalk(edges, a, c, n - 1);
      walk := prefix + [e];
      assert walk[..|walk| - 1] == prefix;
    }
  }

  /** Level sets and walks define the same distance. */
  lemma BallIsWithin(edges: seq<Triple>, a: string, b: string, n: nat)
    ensures b in Ball(edges, a, n) <==> Within(edges, a, b, n)
  {
    if b in Ball(edges, a, n) {
      var walk := BallHasWalk(edges, a, b, n);
    }
    if walk :| |walk| <= n && Walk(edges, walk, a, b) {
      WalkInBall(edges, walk, a, b);
      BallGrows(edges, a, |walk|, n);
    }
  }

  function Reverse<T>(s: seq<T>): (r: seq<T>)
    ensures |r| == |s|
  {
    if s == [] then [] else Reverse(s[1..]) + [s[0]]
  }

  lemma {:induction false} WalkPrepend(edges: seq<Triple>, e: Triple, walk: seq<Triple>, a: string, b: string, c: string)
    requires e in edges && e.Joins(a, b) && Walk(edges, walk, b, c)
    ensures Walk(edges, [e] + walk, a, c)
  {
    var w := [e] + walk;
    if walk == [] {
      assert w[..0] == [];
    } else {
      var n := |walk| - 1;
      assert w[..n + 1] == [e] + walk[..n];
      if walk[n].dst == c && Walk(edges, walk[..n], b, walk[n].src) {
        WalkPrepend(edges, e, walk[..n], a, b, walk[n].src);
      } else {
        WalkPrepend(edges, e, walk[..n], a, b, walk[n].dst);
      }
    }
  }

  lemma {:induction false} WalkReverses(edges: seq<Triple>, walk: seq<Triple>, a: string, b: string)
    requires Walk(edges, walk, a, b)
    ensures exists back :: |back| == |walk| && Walk(edges, back, b, a)
    decreases |walk|
  {
    if walk == [] {
      assert Walk(edges, [], b, a);
    } else {
      var n := |walk| - 1;
      var c := if walk[n].dst == b && Walk(edges, walk[..n], a, walk[n].src) then walk[n].src else walk[n].dst;
      WalkReverses(edges, walk[..n], a, c);
      var back :| |back| == n && Walk(edges, back, c, a);
      WalkPrepend(edges, walk[n], back, b, c, a);
    }
  }

  /** Distance is symmetric, so being a neighbor within a depth is. */
  lemma WithinSymmetric(edges: seq<Triple>, a: string, b: string, n: nat)
    ensures Within(edges, a, b, n) <==> Within(edges, b, a, n)
  {
    if walk :| |walk| <= n && Walk(edges, walk, a, b) { WalkReverses(edges, walk, a, b); }
    if walk :| |walk| <= n && Walk(edges, walk, b, a) { WalkReverses(edges, walk, b, a); }
  }

  // ---------------------------------------------------------------- orders and endpoints

  predicate TripleLe(a: Triple, b: Triple) {
    || (a.src != b.src && StringLe(a.src, b.src))
    || (a.src == b.src && a.dst != b.dst && StringLe(a.dst, b.dst))
    || (a.src == b.src && a.dst == b.dst && StringLe(a.rel, b.rel))
  }

  lemma TripleOrder()
    ensures TotalPreorder(TripleLe) && AntiSymmetric(TripleLe)
  {
    forall a, b ensures TripleLe(a, b) || TripleLe(b, a) {
      StringLeTotal(a.src, b.src);
      StringLeTotal(a.dst, b.dst);
      StringLeTotal(a.rel, b.rel);
    }
    forall a, b | TripleLe(a, b) && TripleLe(b, a) ensures a == b {
      if a.src != b.src { StringLeAntiSymmetric(a.src, b.src); }
      else if a.dst != b.dst { StringLeAntiSymmetric(a.dst, b.dst); }
      else { StringLeAntiSymmetric(a.rel, b.rel); }
    }
    forall a, b, c | TripleLe(a, b) && TripleLe(b, c) ensures TripleLe(a, c) {
      TripleLeTransitive(a, b, c);
    }
  }

  lemma TripleLeTransitive(a: Triple, b: Triple, c: Triple)
    requires TripleLe(a, b) && TripleLe(b, c)
    ensures TripleLe(a, c)
  {
    hide StringLe;
    if a.src != b.src || b.src != c.src {
      if a.src == c.src { StringLeAntiSymmetric(a.src, b.src); }
      StringLeTransitive(a.src, b.src, c.src) by { StringLeReflexive(a.src); StringLeReflexive(c.src); }
    } else if a.dst != b.dst || b.dst != c.dst {
      if a.dst == c.dst { StringLeAntiSymmetric(a.dst, b.dst); }
      StringLeTransitive(a.dst, b.dst, c.dst) by { StringLeReflexive(a.dst); StringLeReflexive(c.dst); }
    } else {
      StringLeTransitive(a.rel, b.rel, c.rel);
    }
  }

  function Endpoints(edges: seq<Triple>): set<string> {
    (set i | 0 <= i < |edges| :: edges[i].src) + (set i | 0 <= i < |edges| :: edges[i].dst)
  }

  lemma EndpointsAre(edges: seq<Triple>, n: string)
    ensures n in Endpoints(edges) <==> exists e :: e in edges && e.Touches(n)
  {
    if e :| e in edges && e.Touches(n) {
      var i :| 0 <= i < |edges| && edges[i] == e;
    }
    if i :| 0 <= i < |edges| && edges[i].src == n { assert edges[i].Touches(n); }
    if i :| 0 <= i < |edges| && edges[i].dst == n { assert edges[i].Touches(n); }
  }

  /** A walk that goes anywhere starts and ends at endpoints of edges. */
  lemma {:induction false} WalkEndpoints(edges: seq<Triple>, walk: seq<Triple>, a: string, b: string)
    requires Walk(edges, walk, a, b) && walk != []
    ensures a in Endpoints(edges) && b in Endpoints(edges)
  {
    var n := |walk| - 1;
    assert walk[n].Touches(b);
    EndpointsAre(edges, b);
    var c := if walk[n].dst == b && Walk(edges, walk[..n], a, walk[n].src) then walk[n].src else walk[n].dst;
    if n == 0 {
      assert walk[n].Touches(a);
      EndpointsAre(edges, a);
    } else {
      WalkEndpoints(edges, walk[..n], a, c);
    }
  }

  // ---------------------------------------------------------------- writes

  /** The stored edges after a write: new ones appended, each once. */
  function AddEdges(edges: seq<Triple>, triples: seq<Triple>): (r: seq<Triple>)
    ensures edges <= r
    ensures forall e :: e in r <==> e in edges || e in triples
  {
    if triples == [] then edges
    else
      var t := triples[|triples| - 1];
      assert triples == triples[..|triples| - 1] + [t];
      var rest := AddEdges(edges, triples[..|triples| - 1]);
      if t in rest then rest else rest + [t]
  }

  lemma {:induction false} AddEdgesDistinct(edges: seq<Triple>, triples: seq<Triple>)
    requires Distinct(edges)
    ensures Distinct(AddEdges(edges, triples))
  {
    if triples == [] {
    } else {
      AddEdgesDistinct(edges, triples[..|triples| - 1]);
    }
  }

  lemma {:induction false} AddKnownEdges(edges: seq<Triple>, triples: seq<Triple>)
    requires forall t :: t in triples ==> t in edges
    ensures AddEdges(edges, triples) == edges
  {
    if triples == [] {
    } else {
      AddKnownEdges(edges, triples[..|triples| - 1]);
    }
  }

  /** Writing the same triples again changes nothing. */
  lemma WriteIsIdempotent(edges: seq<Triple>, triples: seq<Triple>)
    ensures AddEdges(AddEdges(edges, triples), triples) == AddEdges(edges, triples)
  {
    AddKnownEdges(AddEdges(edges, triples), triples);
  }

  // ---------------------------------------------------------------- the client

  type Adjacency = map<string, seq<Triple>>

  ghost predicate IsAdjacency(adj: Adjacency, edges: seq<Triple>) {
    && adj.Keys == Endpoints(edges)
    && (forall n, e :: n in adj && e in adj[n] ==> e in edges && e.Touches(n))
    && (forall e :: e in edges ==> e.src in adj && e in adj[e.src] && e.dst in adj && e in adj[e.dst])
  }

  function Append(adj: Adjacency, n: string, e: Triple): Adjacency {
    adj[n := (if n in adj then adj[n] else []) + [e]]
  }

  class InMemoryGraph {
    var store: map<string, GraphResult>

    constructor ()
      ensures store == map[]
    {
      store := map[];
    }

    function Edges(tenant: string): seq<Triple>
      reads this
    {
      if tenant in store then store[tenant].edges else []
    }

    /** Each tenant's nodes are exactly its edges' endpoints, sorted, and no edge is
        stored twice. */
    ghost predicate Valid()
      reads this
    {
      forall tenant :: tenant in store ==>
        Distinct(store[tenant].edges) && IsSortedSet(StringLe, store[tenant].nodes, Endpoints(store[tenant].edges))
    }

    method Upsert(tenant: string, triples: seq<Triple>) returns (res: GraphResult)
      requires Valid()
      modifies this
      ensures Valid()
      ensures tenant in store && res == store[tenant]
      ensures Edges(tenant) == AddEdges(old(Edges(tenant)), triples)
      ensures store.Keys == old(store.Keys) + {tenant}
      ensures forall other :: other in store && other != tenant ==> store[other] == old(store)[other]
    {
      hide Distinct, IsSortedSet, Endpoints, AddEdges, StringLe, TotalPreorder;
      var before := if tenant in store then store[tenant] else GraphResult([], []);
      assert before.edges == Edges(tenant);
      WriteFacts(before, tenant in store);
      AddNothing(before.edges);
      assert triples[..0] == [];
      var nodes, edges := (set n | n in before.nodes), before.edges;
      for i := 0 to |triples|
        invariant store == old(store)
        invariant edges == AddEdges(before.edges, triples[..i])
        invariant nodes == Endpoints(edges)
      {
        var t := triples[i];
        AddEdgesNext(before.edges, triples, i);
        nodes := nodes + {t.src, t.dst};
        if t !in edges {
          edges := edges + [t];
        }
      }
      assert triples[..|triples|] == triples;
      AddEdgesDistinct(before.edges, triples);
      StringOrder();
      var sorted := SortSet(StringLe, nodes);
      assert store == old(store);
      res := GraphResult(sorted, edges);
      store := store[tenant := res];
    }

    /** The subgraph within `depth` hops. */
    method Neighbors(tenant: string, node: string, depth: int) returns (r: GraphResult)
      ensures IsNeighborhood(r, Edges(tenant), node, ClampDepth(depth))
    {
      hide IsSortedSet, StringLe, TripleLe, TotalPreorder, AntiSymmetric;
      hide IsAdjacency, Endpoints, TouchedBy, Adjacent, Ball;
      var hops := ClampDepth(depth);
      ghost var edges := Edges(tenant);
      var adj := BuildAdjacency(tenant);
      if node !in adj {
        return GraphResult([], []);
      }
      var seenNodes, seenEdges, frontier := {node}, {}, {node};
      var d := 0;
      BallZero(edges, node);
      while d < hops
        invariant d <= hops && node in Endpoints(edges)
        invariant seenNodes == Ball(edges, node, d) && frontier <= seenNodes
        invariant d == 0 ==> frontier == {node} && seenEdges == {}
        invariant d > 0 ==> Ball(edges, node, d) == Ball(edges, node, d - 1) + frontier
        invariant d > 0 ==> seenEdges == TouchedBy(edges, Ball(edges, node, d - 1))
      {
        ExpandBall(edges, node, d, frontier, seenEdges);
        var found, touched := ExpandFrontier(edges, adj, frontier);
        seenEdges := seenEdges + touched;
        frontier := found - seenNodes;
        seenNodes := seenNodes + found;
        d := d + 1;
        if frontier == {} {
          assert Ball(edges, node, d) == Ball(edges, node, d - 1) + {} == Ball(edges, node, d - 1);
          EmptyFrontier(edges, node, d, hops);
          break;
        }
      }
      assert seenNodes == Ball(edges, node, hops) && seenEdges == TouchedBy(edges, Ball(edges, node, hops - 1));
      StringOrder();
      TripleOrder();
      var nodes := SortSet(StringLe, seenNodes);
      var sorted := SortSet(TripleLe, seenEdges);
      r := GraphResult(nodes, sorted);
    }

    /** A shortest path of at most `maxDepth` edges; empty when there is none, and
        also from a node to itself. */
    method Path(tenant: string, src: string, dst: string, maxDepth: int) returns (r: seq<Triple>)
      ensures IsShortestPath(r, Edges(tenant), src, dst, ClampDepth(maxDepth))
    {
      var depth := ClampDepth(maxDepth);
      ghost var edges := Edges(tenant);
      var adj := BuildAdjacency(tenant);
      if src !in adj || dst !in adj {
        NoEdgeNoWalk(edges, src, dst, depth);
        return [];
      }
      r := Search(edges, adj, src, dst, depth);
    }

    lemma WriteFacts(r: GraphResult, stored: bool)
      requires stored ==> Distinct(r.edges) && IsSortedSet(StringLe, r.nodes, Endpoints(r.edges))
      requires !stored ==> r == GraphResult([], [])
      ensures Distinct(r.edges) && (set n | n in r.nodes) == Endpoints(r.edges)
    {}

    method BuildAdjacency(tenant: string) returns (adj: Adjacency)
      ensures IsAdjacency(adj, Edges(tenant)) && adj.Keys == Endpoints(Edges(tenant))
    {
      hide IsAdjacency, Append;
      adj := map[];
      AdjacencyEmpty();
      var edges := Edges(tenant);
      assert edges[..0] == [];
      for i := 0 to |edges|
        invariant IsAdjacency(adj, edges[..i])
      {
        var e := edges[i];
        assert edges[..i + 1] == edges[..i] + [e];
        AdjacencyNext(adj, edges[..i], e);
        adj := Append(adj, e.src, e);
        adj := Append(adj, e.dst, e);
      }
      assert edges[..|edges|] == edges;
      AdjacencyKeys(adj, edges);
    }
  }

  // ---------------------------------------------------------------- neighborhoods

  ghost function TouchedBy(edges: seq<Triple>, nodes: set<string>): set<Triple> {
    set e | e in edges && (e.src in nodes || e.dst in nodes)
  }

  /** The answer of a neighborhood query: the nodes within the depth, the edges with
      an endpoint one step closer, both sorted. An unknown node has no answer. */
  ghost predicate IsNeighborhood(r: GraphResult, edges: seq<Triple>, node: string, depth: nat)
    requires depth >= 1
  {
    if node !in Endpoints(edges) then r == GraphResult([], [])
    else
      && IsSortedSet(StringLe, r.nodes, Ball(edges, node, depth))
      && IsSortedSet(TripleLe, r.edges, TouchedBy(edges, Ball(edges, node, depth - 1)))
  }

  /** The edges of an answer come by source, then by destination, then by relation. */
  lemma EdgesInOrder(r: GraphResult, edges: seq<Triple>, node: string, depth: nat, i: nat, j: nat)
    requires depth >= 1 && IsNeighborhood(r, edges, node, depth) && i < j < |r.edges|
    ensures var e, f := r.edges[i], r.edges[j];
      && StringLe(e.src, f.src)
      && (e.src == f.src ==> StringLe(e.dst, f.dst))
      && (e.src == f.src && e.dst == f.dst ==> StringLe(e.rel, f.rel) && e.rel != f.rel)
  {
    hide Ball, TouchedBy, StringLe;
    StringLeReflexive(r.edges[i].src);
    StringLeReflexive(r.edges[i].dst);
  }

  /** What one round of the breadth-first expansion adds. */
  lemma ExpandBall(edges: seq<Triple>, node: string, d: nat, frontier: set<string>, seenEdges: set<Triple>)
    requires frontier <= Ball(edges, node, d)
    requires d == 0 ==> frontier == {node} && seenEdges == {}
    requires d > 0 ==> Ball(edges, node, d) == Ball(edges, node, d - 1) + frontier
    requires d > 0 ==> seenEdges == TouchedBy(edges, Ball(edges, node, d - 1))
    ensures Ball(edges, node, d + 1) == Ball(edges, node, d) + Adjacent(edges, frontier)
    ensures TouchedBy(edges, Ball(edges, node, d)) == seenEdges + TouchedBy(edges, frontier)
  {
    var ball := Ball(edges, node, d);
    if d > 0 {
      var inner := Ball(edges, node, d - 1);
      assert ball == inner + Adjacent(edges, inner);
      forall b | b in Adjacent(edges, ball) ensures b in ball + Adjacent(edges, frontier) {
        var a, e := AdjacentHas(edges, ball, b);
        if a in inner {
          AdjacentBy(edges, inner, a, b, e);
        } else {
          AdjacentBy(edges, frontier, a, b, e);
        }
      }
    }
  }

  lemma BallZero(edges: seq<Triple>, node: string)
    ensures Ball(edges, node, 0) == {node}
  {}

  lemma EmptyFrontier(edges: seq<Triple>, node: string, d: nat, depth: nat)
    requires 0 < d <= depth && Ball(edges, node, d) == Ball(edges, node, d - 1)
    ensures Ball(edges, node, depth) == Ball(edges, node, d) == Ball(edges, node, depth - 1)
  {
    hide Ball;
    if d == depth {
    } else {
      EmptyFrontier(edges, node, d, depth - 1);
      BallStable(edges, node, depth - 1);
    }
  }

  lemma BallStable(edges: seq<Triple>, node: string, d: nat)
    requires d > 0 && Ball(edges, node, d) == Ball(edges, node, d - 1)
    ensures Ball(edges, node, d + 1) == Ball(edges, node, d)
  {
    hide Adjacent;
  }

  /** `m` is a neighbor of `n` exactly when a walk within the depth joins them, so
      neighborhoods are symmetric and grow with the depth. */
  lemma NeighborhoodMembers(r: GraphResult, edges: seq<Triple>, n: string, depth: nat, m: string)
    requires depth >= 1 && IsNeighborhood(r, edges, n, depth) && m != n
    ensures m in r.nodes <==> Within(edges, n, m, depth)
  {
    BallIsWithin(edges, n, m, depth);
    if walk :| |walk| <= depth && Walk(edges, walk, n, m) {
      WalkEndpoints(edges, walk, n, m);
    }
  }

  lemma NeighborhoodsAreSymmetric(r: GraphResult, q: GraphResult, edges: seq<Triple>, n: string, m: string, depth: nat)
    requires depth >= 1 && IsNeighborhood(r, edges, n, depth) && IsNeighborhood(q, edges, m, depth)
    ensures m in r.nodes <==> n in q.nodes
  {
    if m != n {
      NeighborhoodMembers(r, edges, n, depth, m);
      NeighborhoodMembers(q, edges, m, depth, n);
      WithinSymmetric(edges, n, m, depth);
    }
  }

  lemma NeighborhoodsGrow(r: GraphResult, q: GraphResult, edges: seq<Triple>, n: string, depth: nat, more: nat)
    requires 1 <= depth <= more && IsNeighborhood(r, edges, n, depth) && IsNeighborhood(q, edges, n, more)
    ensures forall m :: m in r.nodes ==> m in q.nodes
    ensures forall e :: e in r.edges ==> e in q.edges
  {
    hide Ball, Sorted, Distinct;
    BallGrows(edges, n, depth, more);
    BallGrows(edges, n, depth - 1, more - 1);
    if n in Endpoints(edges) {
      hide Endpoints;
      forall e | e in r.edges ensures e in q.edges {
        assert e in TouchedBy(edges, Ball(edges, n, depth - 1));
        assert e in TouchedBy(edges, Ball(edges, n, more - 1));
      }
    }
  }

  /** The edges at the frontier's nodes, and those edges' endpoints. */
  method ExpandFrontier(ghost edges: seq<Triple>, adj: Adjacency, frontier: set<string>)
    returns (found: set<string>, touched: set<Triple>)
    requires IsAdjacency(adj, edges)
    ensures touched == TouchedBy(edges, frontier)
    ensures found == Reached(edges, frontier)
  {
    hide IsAdjacency, TouchedBy, Adjacent, Endpoints;
    var todo := frontier;
    found, touched := {}, {};
    NoneTouched(edges);
    assert frontier - todo == {};
    while todo != {}
      invariant todo <= frontier
      invariant touched == TouchedBy(edges, frontier - todo)
      invariant found == Reached(edges, frontier - todo)
      decreases todo
    {
      var n :| n in todo;
      var here := if n in adj then adj[n] else [];
      AdjacencyAt(edges, adj, n);
      TouchOne(edges, here, frontier - todo, n);
      ReachOne(edges, here, frontier - todo, n);
      touched := touched + (set e | e in here);
      found := found + Ends(here);
      assert frontier - (todo - {n}) == (frontier - todo) + {n};
      todo := todo - {n};
    }
    assert frontier - todo == frontier;
  }

  function Ends(here: seq<Triple>): set<string> { (set e | e in here :: e.src) + (set e | e in here :: e.dst) }

  /** What a round finds: the neighbors, and the nodes themselves if they have edges. */
  ghost function Reached(edges: seq<Triple>, nodes: set<string>): set<string> {
    Adjacent(edges, nodes) + nodes * Endpoints(edges)
  }

  lemma NoneTouched(edges: seq<Triple>)
    ensures TouchedBy(edges, {}) == {} && Reached(edges, {}) == {}
  {}

  lemma TouchOne(edges: seq<Triple>, here: seq<Triple>, done: set<string>, n: string)
    requires forall e :: e in here <==> e in edges && e.Touches(n)
    ensures TouchedBy(edges, done + {n}) == TouchedBy(edges, done) + set e | e in here
  {}

  lemma ReachOne(edges: seq<Triple>, here: seq<Triple>, done: set<string>, n: string)
    requires forall e :: e in here <==> e in edges && e.Touches(n)
    ensures Reached(edges, done + {n}) == Reached(edges, done) + Ends(here)
  {
    EndpointsAre(edges, n);
    ReachMore(edges, here, done, n);
    hide Adjacent, Endpoints;
    var more := Reached(edges, done + {n});
    forall b | b in Ends(here) ensures b in more {
      var e :| e in here && (e.src == b || e.dst == b);
      AdjacentBy(edges, done + {n}, n, if e.src == n then e.dst else e.src, e);
    }
    forall b | b in Adjacent(edges, done) ensures b in more {
      var a, e := AdjacentHas(edges, done, b);
      AdjacentBy(edges, done + {n}, a, b, e);
    }
  }

  lemma ReachMore(edges: seq<Triple>, here: seq<Triple>, done: set<string>, n: string)
    requires forall e :: e in here <==> e in edges && e.Touches(n)
    ensures Reached(edges, done + {n}) <= Reached(edges, done) + Ends(here)
  {
    EndpointsAre(edges, n);
    hide Adjacent, Endpoints;
    forall b | b in Adjacent(edges, done + {n}) ensures b in Adjacent(edges, done) + Ends(here) {
      var a, e := AdjacentHas(edges, done + {n}, b);
      if a in done { AdjacentBy(edges, done, a, b, e); } else { assert e in here; }
    }
    if n in Endpoints(edges) {
      var e :| e in edges && e.Touches(n);
      assert e in here;
    }
  }

  // ---------------------------------------------------------------- shortest paths

  /** The answer of a path query. */
  ghost predicate IsShortestPath(r: seq<Triple>, edges: seq<Triple>, src: string, dst: string, depth: nat) {
    && (r != [] ==> src != dst && |r| <= depth && Walk(edges, r, src, dst))
    && (r != [] ==> forall walk :: Walk(edges, walk, src, dst) ==> |r| <= |walk|)
    && (r == [] ==> src == dst || !Within(edges, src, dst, depth))
  }

  /** Path and neighborhood queries agree: a distinct node is a neighbor within a
      depth exactly when a path query with that depth finds a path. */
  lemma PathIffNeighbor(r: GraphResult, p: seq<Triple>, edges: seq<Triple>, n: string, m: string, depth: nat)
    requires depth >= 1 && n != m && IsNeighborhood(r, edges, n, depth) && IsShortestPath(p, edges, n, m, depth)
    ensures m in r.nodes <==> p != []
  {
    NeighborhoodMembers(r, edges, n, depth, m);
  }

  type Links = map<string, (string, Triple)>

  /** The breadth-first search's bookkeeping: `depthOf` is the level each visited
      node was reached at, and its link leads one level up along an edge. */
  ghost predicate LinkedBack(edges: seq<Triple>, prev: Links, src: string, depthOf: map<string, nat>) {
    && src in depthOf && depthOf[src] == 0 && prev.Keys == depthOf.Keys - {src}
    && forall v :: v in prev ==>
         && prev[v].0 in depthOf && depthOf[v] == depthOf[prev[v].0] + 1
         && prev[v].1 in edges && prev[v].1.Joins(prev[v].0, v)
  }

  ghost function PathTo(edges: seq<Triple>, prev: Links, src: string, depthOf: map<string, nat>, v: string): (r: seq<Triple>)
    requires LinkedBack(edges, prev, src, depthOf) && v in depthOf
    ensures |r| == depthOf[v] && Walk(edges, r, src, v)
    decreases depthOf[v]
  {
    if v == src then []
    else
      var r := PathTo(edges, prev, src, depthOf, prev[v].0) + [prev[v].1];
      assert r[..|r| - 1] == PathTo(edges, prev, src, depthOf, prev[v].0);
      r
  }

  lemma PathEnds(edges: seq<Triple>, prev: Links, src: string, depthOf: map<string, nat>, v: string)
    requires LinkedBack(edges, prev, src, depthOf) && v in depthOf
    ensures PathTo(edges, prev, src, depthOf, src) == [] && Reverse<Triple>([]) == []
    ensures PathTo(edges, prev, src, depthOf, v) + Reverse<Triple>([]) == PathTo(edges, prev, src, depthOf, v)
  {
  }

  lemma PathBack(edges: seq<Triple>, prev: Links, src: string, depthOf: map<string, nat>, v: string, back: seq<Triple>)
    requires LinkedBack(edges, prev, src, depthOf) && v in depthOf && v != src
    ensures v in prev && prev[v].0 in depthOf
    ensures PathTo(edges, prev, src, depthOf, v) + Reverse(back)
         == PathTo(edges, prev, src, depthOf, prev[v].0) + Reverse(back + [prev[v].1])
  {
    var (parent, edge) := prev[v];
    var head := PathTo(edges, prev, src, depthOf, parent);
    assert PathTo(edges, prev, src, depthOf, v) == head + [edge];
    hide PathTo, Reverse;
    ReverseSnoc(back, edge);
    assert head + [edge] + Reverse(back) == head + ([edge] + Reverse(back));
  }

  /** Follows the links back from `dst`; the levels make it terminate. */
  method Reconstruct(ghost edges: seq<Triple>, prev: Links, src: string, dst: string, ghost depthOf: map<string, nat>)
    returns (path: seq<Triple>)
    requires LinkedBack(edges, prev, src, depthOf) && dst in depthOf
    ensures path == PathTo(edges, prev, src, depthOf, dst)
  {
    hide PathTo, Reverse;
    var back, cur := [], dst;
    PathEnds(edges, prev, src, depthOf, dst);
    while cur != src
      invariant cur in depthOf
      invariant PathTo(edges, prev, src, depthOf, cur) + Reverse(back) == PathTo(edges, prev, src, depthOf, dst)
      decreases depthOf[cur]
    {
      var (parent, edge) := prev[cur];
      PathBack(edges, prev, src, depthOf, cur, back);
      back := back + [edge];
      cur := parent;
    }
    path := Reverse(back);
  }

  lemma {:induction false} ReverseSnoc<T>(s: seq<T>, x: T)
    ensures Reverse(s + [x]) == [x] + Reverse(s)
  {
    if s == [] {
    } else {
      ReverseSnoc(s[1..], x);
      assert (s + [x])[1..] == s[1..] + [x];
    }
  }

  /** A level of the search: once every queued node is at level `n` or deeper, the
      nodes within distance `n` are visited, at their distance. */
  ghost predicate Explored(edges: seq<Triple>, depthOf: map<string, nat>, queued: set<string>, depth: nat) {
    forall v, e, w :: v in depthOf && v !in queued && depthOf[v] < depth && e in edges && e.Joins(v, w) ==>
      w in depthOf && depthOf[w] <= depthOf[v] + 1
  }

  lemma {:induction false} LevelVisited(edges: seq<Triple>, src: string, depthOf: map<string, nat>, queued: set<string>,
                                        depth: nat, n: nat, w: string)
    requires src in depthOf && depthOf[src] == 0 && Explored(edges, depthOf, queued, depth)
    requires n <= depth && w in Ball(edges, src, n)
    requires forall q :: q in queued && q in depthOf ==> depthOf[q] >= n
    ensures w in depthOf && depthOf[w] <= n
    decreases n
  {
    if n == 0 {
    } else {
      if w in Ball(edges, src, n - 1) {
        LevelVisited(edges, src, depthOf, queued, depth, n - 1, w);
      } else {
        var u, e := AdjacentHas(edges, Ball(edges, src, n - 1), w);
        LevelVisited(edges, src, depthOf, queued, depth, n - 1, u);
      }
    }
  }

  type Queue = seq<(string, nat)>

  function Queued(queue: Queue): set<string> { set i | 0 <= i < |queue| :: queue[i].0 }

  ghost predicate Leveled(queue: Queue, depthOf: map<string, nat>, level: nat, depth: nat) {
    && (forall i :: 0 <= i < |queue| ==>
          queue[i].0 in depthOf && depthOf[queue[i].0] == queue[i].1 && level <= queue[i].1 <= level + 1 && queue[i].1 <= depth)
    && (forall i, j :: 0 <= i < j < |queue| ==> queue[i].1 <= queue[j].1 && queue[i].0 != queue[j].0)
    && (forall v :: v in depthOf ==> depthOf[v] <= level + 1)
  }

  /** The search between two steps. `level` is the depth of the node being worked
      on; the queue holds nodes of that level and then of the next; `busy` are the
      nodes taken off the queue and not yet worked off. */
  ghost predicate SearchInv(edges: seq<Triple>, src: string, depth: nat, prev: Links, visited: set<string>,
                            queue: Queue, depthOf: map<string, nat>, level: nat, busy: set<string>) {
    && LinkedBack(edges, prev, src, depthOf) && visited == depthOf.Keys && visited <= Endpoints(edges) + {src}
    && Leveled(queue, depthOf, level, depth)
    && Explored(edges, depthOf, Queued(queue) + busy, depth)
  }

  lemma QueuedSnoc(queue: Queue, item: (string, nat))
    ensures Queued(queue + [item]) == Queued(queue) + {item.0}
  {
    var more := queue + [item];
    assert more[|queue|] == item;
    forall n | n in Queued(queue) ensures n in Queued(more) {
      var i :| 0 <= i < |queue| && queue[i].0 == n;
      assert more[i].0 == n;
    }
  }

  /** Reaching an unvisited node over an edge of the node being worked on. */
  lemma ReachKeeps(edges: seq<Triple>, src: string, depth: nat, prev: Links, visited: set<string>, queue: Queue,
                   depthOf: map<string, nat>, level: nat, cur: string, e: Triple, w: string)
    requires SearchInv(edges, src, depth, prev, visited, queue, depthOf, level, {cur})
    requires cur in depthOf && depthOf[cur] == level < depth && e in edges && e.Joins(cur, w) && w !in visited
    ensures SearchInv(edges, src, depth, prev[w := (cur, e)], visited + {w}, queue + [(w, level + 1)],
                      depthOf[w := level + 1], level, {cur})
  {
    QueuedSnoc(queue, (w, level + 1));
    assert e.Touches(w);
    EndpointsAre(edges, w);
    ReachLinked(edges, src, prev, depthOf, cur, e, w);
    hide LinkedBack, Endpoints, Queued, Leveled, Explored;
    LeveledSnoc(queue, depthOf, level, depth, w);
    ReachExplored(edges, depthOf, Queued(queue), depth, cur, w, level + 1);
    assert Queued(queue) + {w} + {cur} == Queued(queue + [(w, level + 1)]) + {cur};
  }

  lemma ReachLinked(edges: seq<Triple>, src: string, prev: Links, depthOf: map<string, nat>, cur: string, e: Triple,
                    w: string)
    requires LinkedBack(edges, prev, src, depthOf) && w !in depthOf
    requires cur in depthOf && e in edges && e.Joins(cur, w)
    ensures LinkedBack(edges, prev[w := (cur, e)], src, depthOf[w := depthOf[cur] + 1])
  {
  }

  lemma ReachExplored(edges: seq<Triple>, depthOf: map<string, nat>, queued: set<string>, depth: nat, cur: string,
                      w: string, d: nat)
    requires Explored(edges, depthOf, queued + {cur}, depth) && w !in depthOf
    ensures Explored(edges, depthOf[w := d], queued + {w} + {cur}, depth)
  {
  }

  lemma LeveledSnoc(queue: Queue, depthOf: map<string, nat>, level: nat, depth: nat, w: string)
    requires Leveled(queue, depthOf, level, depth) && level < depth && w !in depthOf
    ensures Leveled(queue + [(w, level + 1)], depthOf[w := level + 1], level, depth)
  {
    var q2 := queue + [(w, level + 1)];
    assert forall i :: 0 <= i < |queue| ==> q2[i] == queue[i];
  }

  /** Taking the next node off the queue. */
  lemma QueuedFirst(queue: Queue)
    requires queue != []
    ensures Queued(queue) == Queued(queue[1..]) + {queue[0].0}
  {
    var rest := queue[1..];
    forall n | n in Queued(queue) ensures n in Queued(rest) + {queue[0].0} {
      var i :| 0 <= i < |queue| && queue[i].0 == n;
      if i > 0 { assert rest[i - 1] == queue[i]; }
    }
    forall n | n in Queued(rest) ensures n in Queued(queue) {
      var i :| 0 <= i < |rest| && rest[i].0 == n;
      assert queue[i + 1] == rest[i];
    }
  }

  lemma PopKeeps(edges: seq<Triple>, src: string, depth: nat, prev: Links, visited: set<string>, queue: Queue,
                 depthOf: map<string, nat>, level: nat)
    requires SearchInv(edges, src, depth, prev, visited, queue, depthOf, level, {}) && queue != []
    ensures SearchInv(edges, src, depth, prev, visited, queue[1..], depthOf, queue[0].1, {queue[0].0})
    ensures queue[0].0 in depthOf && depthOf[queue[0].0] == queue[0].1 && queue[0].0 !in Queued(queue[1..])
    ensures Queued(queue) == Queued(queue[1..]) + {queue[0].0}
    ensures forall v :: v in Queued(queue) ==> v in depthOf && depthOf[v] >= queue[0].1
  {
    var rest := queue[1..];
    assert queue == [queue[0]] + rest;
    QueuedFirst(queue);
    hide LinkedBack, Endpoints;
    forall i | 0 <= i < |rest| ensures rest[i].1 >= queue[0].1 && rest[i].0 != queue[0].0 {
      assert rest[i] == queue[i + 1];
    }
  }

  /** The node is worked off when all its neighbors are visited, or when it is too
      deep to expand. */
  lemma WorkedOff(edges: seq<Triple>, src: string, depth: nat, prev: Links, visited: set<string>, queue: Queue,
                  depthOf: map<string, nat>, level: nat, cur: string)
    requires SearchInv(edges, src, depth, prev, visited, queue, depthOf, level, {cur})
    requires cur in depthOf && depthOf[cur] == level
    requires level < depth ==> forall e, w :: e in edges && e.Joins(cur, w) ==> w in depthOf
    ensures SearchInv(edges, src, depth, prev, visited, queue, depthOf, level, {})
  {
    hide LinkedBack, Endpoints, Queued;
    assert Queued(queue) + {} == Queued(queue);
  }

  /** Taken off the queue, `dst` is at its true distance. */
  lemma FoundIsShortest(edges: seq<Triple>, src: string, dst: string, depth: nat, depthOf: map<string, nat>,
                        queued: set<string>, walk: seq<Triple>)
    requires src in depthOf && depthOf[src] == 0 && Explored(edges, depthOf, queued, depth)
    requires dst in depthOf && depthOf[dst] <= depth
    requires forall q :: q in queued && q in depthOf ==> depthOf[q] >= depthOf[dst]
    requires Walk(edges, walk, src, dst)
    ensures depthOf[dst] <= |walk|
  {
    if |walk| < depthOf[dst] {
      WalkInBall(edges, walk, src, dst);
      LevelVisited(edges, src, depthOf, queued, depth, |walk|, dst);
    }
  }

  lemma FoundPath(edges: seq<Triple>, src: string, dst: string, depth: nat, depthOf: map<string, nat>,
                  queued: set<string>, r: seq<Triple>)
    requires src in depthOf && depthOf[src] == 0 && Explored(edges, depthOf, queued, depth)
    requires dst in depthOf && depthOf[dst] <= depth && |r| == depthOf[dst] && Walk(edges, r, src, dst)
    requires forall q :: q in queued && q in depthOf ==> depthOf[q] >= depthOf[dst]
    ensures IsShortestPath(r, edges, src, dst, depth)
  {
    hide Explored;
    forall walk | Walk(edges, walk, src, dst) ensures |r| <= |walk| {
      FoundIsShortest(edges, src, dst, depth, depthOf, queued, walk);
    }
  }

  lemma Exhausted(edges: seq<Triple>, src: string, dst: string, depth: nat, depthOf: map<string, nat>)
    requires src in depthOf && depthOf[src] == 0 && Explored(edges, depthOf, {}, depth) && dst !in depthOf
    ensures IsShortestPath([], edges, src, dst, depth)
  {
    hide Within, Walk;
    BallIsWithin(edges, src, dst, depth);
    if dst in Ball(edges, src, depth) {
      LevelVisited(edges, src, depthOf, {}, depth, depth, dst);
    }
  }

  /** Visits the unvisited neighbors of `cur`. */
  method VisitNeighbors(ghost edges: seq<Triple>, here: seq<Triple>, src: string, depth: nat, cur: string, d: nat,
                        prev0: Links, visited0: set<string>, queue0: Queue, ghost depthOf0: map<string, nat>)
    returns (prev: Links, visited: set<string>, queue: Queue, ghost depthOf: map<string, nat>)
    requires SearchInv(edges, src, depth, prev0, visited0, queue0, depthOf0, d, {cur})
    requires cur in depthOf0 && depthOf0[cur] == d < depth
    requires forall e :: e in here <==> e in edges && e.Touches(cur)
    ensures SearchInv(edges, src, depth, prev, visited, queue, depthOf, d, {cur})
    ensures visited0 <= visited && cur in depthOf && depthOf[cur] == d
    ensures visited - Queued(queue) == visited0 - Queued(queue0)
    ensures forall e, w :: e in edges && e.Joins(cur, w) ==> w in depthOf
  {
    hide SearchInv, Queued, LinkedBack, Explored;
    prev, visited, queue, depthOf := prev0, visited0, queue0, depthOf0;
    SearchVisited(edges, src, depth, prev, visited, queue, depthOf, d, {cur});
    for i := 0 to |here|
      invariant SearchInv(edges, src, depth, prev, visited, queue, depthOf, d, {cur})
      invariant visited0 <= visited == depthOf.Keys && cur in depthOf && depthOf[cur] == d
      invariant visited - Queued(queue) == visited0 - Queued(queue0) && Queued(queue) <= visited
      invariant forall j :: 0 <= j < i ==> here[j].src in visited && here[j].dst in visited
    {
      var edge := here[i];
      assert edge in here;
      var other := if edge.src == cur then edge.dst else edge.src;
      if other !in visited {
        ReachKeeps(edges, src, depth, prev, visited, queue, depthOf, d, cur, edge, other);
        QueuedSnoc(queue, (other, d + 1));
        visited := visited + {other};
        prev := prev[other := (cur, edge)];
        queue := queue + [(other, d + 1)];
        depthOf := depthOf[other := d + 1];
      }
    }
    forall e, w | e in edges && e.Joins(cur, w) ensures w in depthOf {
      assert e in here;
      var j :| 0 <= j < |here| && here[j] == e;
    }
  }

  lemma SearchVisited(edges: seq<Triple>, src: string, depth: nat, prev: Links, visited: set<string>, queue: Queue,
                      depthOf: map<string, nat>, level: nat, busy: set<string>)
    requires SearchInv(edges, src, depth, prev, visited, queue, depthOf, level, busy)
    ensures visited == depthOf.Keys && Queued(queue) <= visited && visited <= Endpoints(edges) + {src}
    ensures LinkedBack(edges, prev, src, depthOf) && src in depthOf && depthOf[src] == 0
    ensures Explored(edges, depthOf, Queued(queue) + busy, depth)
    ensures queue != [] ==> queue[0].1 <= depth
  {}

  lemma SearchStart(edges: seq<Triple>, src: string, depth: nat)
    ensures SearchInv(edges, src, depth, map[], {src}, [(src, 0)], map[src := 0], 0, {})
    ensures Queued([(src, 0)]) == {src}
  {
    assert [(src, 0)][0].0 == src;
  }

  lemma AdjacencyAt(edges: seq<Triple>, adj: Adjacency, n: string)
    requires IsAdjacency(adj, edges)
    ensures var here := if n in adj then adj[n] else [];
      forall e :: e in here <==> e in edges && e.Touches(n)
  {
    hide Endpoints;
    var here := if n in adj then adj[n] else [];
    forall e ensures e in here <==> e in edges && e.Touches(n) {
      if e in edges && e.Touches(n) {
        assert e in adj[e.src] && e in adj[e.dst];
      }
    }
  }

  method Search(ghost edges: seq<Triple>, adj: Adjacency, src: string, dst: string, depth: nat) returns (r: seq<Triple>)
    requires IsAdjacency(adj, edges)
    ensures IsShortestPath(r, edges, src, dst, depth)
  {
    hide SearchInv, IsAdjacency, Explored, Queued, Walk, IsShortestPath, LinkedBack, Within;
    var prev: Links := map[];
    var visited := {src};
    var queue: Queue := [(src, 0)];
    ghost var depthOf: map<string, nat> := map[src := 0];
    ghost var level: nat := 0;
    SearchStart(edges, src, depth);
    while queue != []
      invariant SearchInv(edges, src, depth, prev, visited, queue, depthOf, level, {})
      invariant dst in visited ==> dst in Queued(queue)
      invariant Queued(queue) <= visited <= Endpoints(edges) + {src}
      decreases Endpoints(edges) + {src} - (visited - Queued(queue))
    {
      var (cur, d) := queue[0];
      ghost var before := Queued(queue);
      PopKeeps(edges, src, depth, prev, visited, queue, depthOf, level);
      SearchVisited(edges, src, depth, prev, visited, queue, depthOf, level, {});
      if cur == dst {
        r := Reconstruct(edges, prev, src, dst, depthOf);
        assert Queued(queue) + {} == Queued(queue);
        FoundPath(edges, src, dst, depth, depthOf, Queued(queue), r);
        return;
      }
      queue := queue[1..];
      level := d;
      ghost var done := visited - before;
      if d < depth {
        AdjacencyAt(edges, adj, cur);
        prev, visited, queue, depthOf := VisitNeighbors(edges, if cur in adj then adj[cur] else [], src, depth, cur, d,
                                                        prev, visited, queue, depthOf);
      }
      WorkedOff(edges, src, depth, prev, visited, queue, depthOf, level, cur);
      SearchVisited(edges, src, depth, prev, visited, queue, depthOf, level, {});
      assert visited - Queued(queue) == done + {cur};
    }
    SearchVisited(edges, src, depth, prev, visited, queue, depthOf, level, {});
    assert Queued(queue) + {} == {} by { QueuedNone(); }
    Exhausted(edges, src, dst, depth, depthOf);
    r := [];
  }

  lemma QueuedNone()
    ensures Queued([]) == {}
  {}

  lemma NoEdgeNoWalk(edges: seq<Triple>, src: string, dst: string, depth: nat)
    requires src !in Endpoints(edges) || dst !in Endpoints(edges)
    ensures IsShortestPath([], edges, src, dst, depth)
  {
    if src != dst && Within(edges, src, dst, depth) {
      var walk :| |walk| <= depth && Walk(edges, walk, src, dst);
      WalkEndpoints(edges, walk, src, dst);
    }
  }

  lemma AdjacencyKeys(adj: Adjacency, edges: seq<Triple>)
    requires IsAdjacency(adj, edges)
    ensures adj.Keys == Endpoints(edges)
  {}

  lemma AdjacencyEmpty()
    ensures IsAdjacency(map[], [])
  {}

  lemma AdjacencyNext(adj: Adjacency, edges: seq<Triple>, e: Triple)
    requires IsAdjacency(adj, edges)
    ensures IsAdjacency(Append(Append(adj, e.src, e), e.dst, e), edges + [e])
  {
    EndpointsAppend(edges, e);
    hide Endpoints;
    var one := Append(adj, e.src, e);
    var two := Append(one, e.dst, e);
    forall n, x | n in two && x in two[n] ensures x in edges + [e] && x.Touches(n) {
      assert x == e || (n in adj && x in adj[n]);
    }
  }

  lemma AddNothing(edges: seq<Triple>)
    ensures AddEdges(edges, []) == edges
  {}

  lemma AddEdgesNext(edges: seq<Triple>, triples: seq<Triple>, i: nat)
    requires i < |triples|
    ensures var was, now := AddEdges(edges, triples[..i]), AddEdges(edges, triples[..i + 1]);
      && now == (if triples[i] in was then was else was + [triples[i]])
      && Endpoints(now) == Endpoints(was) + {triples[i].src, triples[i].dst}
  {
    assert triples[..i + 1][..i] == triples[..i];
    var was := AddEdges(edges, triples[..i]);
    EndpointsAppend(was, triples[i]);
    if triples[i] in was {
      EndpointsAre(was, triples[i].src);
      EndpointsAre(was, triples[i].dst);
    }
  }

  lemma EndpointsAppend(edges: seq<Triple>, e: Triple)
    ensures Endpoints(edges + [e]) == Endpoints(edges) + {e.src, e.dst}
  {
    var more := edges + [e];
    assert more[|edges|] == e;
    forall n | n in Endpoints(edges) ensures n in Endpoints(more) {
      if i :| 0 <= i < |edges| && edges[i].src == n { assert more[i] == edges[i]; }
      if i :| 0 <= i < |edges| && edges[i].dst == n { assert more[i] == edges[i]; }
    }
  }
}
