/** Union-find with path halving and no rank. The abstract state is the map from
    each item to the root of its tree; a ghost height makes `Find` terminate. */
module UnionFinds {

  /** Every parent is an item, and following parents goes down in height. */
  ghost predicate Forest(parent: map<string, string>, height: map<string, nat>) {
    && height.Keys == parent.Keys
    && forall x :: x in parent ==>
         parent[x] in parent && (parent[x] != x ==> height[parent[x]] < height[x])
  }

  ghost function Root(parent: map<string, string>, height: map<string, nat>, x: string): string
    requires Forest(parent, height) && x in parent
    decreases height[x]
  {
    if parent[x] == x then x else Root(parent, height, parent[x])
  }

  /** Every item's root is an item that is its own parent. */
  lemma {:induction false} RootIsRoot(parent: map<string, string>, height: map<string, nat>, x: string)
    requires Forest(parent, height) && x in parent
    ensures Root(parent, height, x) in parent && parent[Root(parent, height, x)] == Root(parent, height, x)
    decreases height[x]
  {
    if parent[x] == x {
    } else {
      RootIsRoot(parent, height, parent[x]);
    }
  }

  lemma RootStep(parent: map<string, string>, height: map<string, nat>, x: string)
    requires Forest(parent, height) && x in parent
    ensures x in height && parent[x] in parent && parent[x] in height
    ensures Root(parent, height, parent[x]) == Root(parent, height, x)
    ensures if parent[x] == x then Root(parent, height, x) == x else height[parent[x]] < height[x]
  {
  }

  lemma HalvingKeepsForest(parent: map<string, string>, height: map<string, nat>, x: string)
    requires Forest(parent, height) && x in parent
    ensures Forest(parent[x := parent[parent[x]]], height)
  {
  }

  /** Path halving: pointing an item at its grandparent leaves every root alone. */
  lemma {:induction false} HalvingKeepsRoots(parent: map<string, string>, height: map<string, nat>, x: string, y: string)
    requires Forest(parent, height) && x in parent && y in parent
    ensures var halved := parent[x := parent[parent[x]]];
      Forest(halved, height) && Root(halved, height, y) == Root(parent, height, y)
    decreases height[y]
  {
    var halved := parent[x := parent[parent[x]]];
    HalvingKeepsForest(parent, height, x);
    hide Root, Forest;
    RootStep(parent, height, y);
    if parent[y] == y {
      if x == y {
        assert halved == parent;
      } else {
        RootStep(halved, height, y);
      }
    } else if x == y {
      RootStep(parent, height, parent[y]);
      RootStep(halved, height, y);
      HalvingKeepsRoots(parent, height, x, parent[parent[y]]);
    } else {
      RootStep(halved, height, y);
      HalvingKeepsRoots(parent, height, x, parent[y]);
    }
  }

  /** The heights after hanging the tree of root `a` under root `b`. */
  ghost function Raised(parent: map<string, string>, height: map<string, nat>, a: string, b: string): map<string, nat>
    requires Forest(parent, height) && a in parent && b in parent
  {
    if a == b then height
    else map x | x in height :: if Root(parent, height, x) == a then height[x] + height[b] + 1 else height[x]
  }

  lemma LinkKeepsForest(parent: map<string, string>, height: map<string, nat>, a: string, b: string)
    requires Forest(parent, height) && a in parent && b in parent && parent[a] == a && parent[b] == b
    ensures Forest(parent[a := b], Raised(parent, height, a, b))
  {
    if a != b {
      forall x | x in parent && x != a && parent[x] != x
        ensures Root(parent, height, parent[x]) == Root(parent, height, x)
      {}
    }
  }

  /** Hanging root `a` under root `b` moves exactly the items of `a`'s tree. */
  lemma {:induction false} LinkMovesRoot(parent: map<string, string>, height: map<string, nat>, a: string, b: string,
                                         raised: map<string, nat>, y: string)
    requires Forest(parent, height) && a in parent && b in parent && parent[a] == a && parent[b] == b && y in parent
    requires Forest(parent[a := b], raised)
    ensures Root(parent[a := b], raised, y) == if Root(parent, height, y) == a then b else Root(parent, height, y)
    decreases height[y]
  {
    var linked := parent[a := b];
    if parent[y] != y {
      LinkMovesRoot(parent, height, a, b, raised, parent[y]);
      assert linked[y] == parent[y];
    } else if y == a && a != b {
      assert Root(linked, raised, b) == b;
    }
  }

  /** The class map of a forest: each item's root. */
  ghost function RootsOf(parent: map<string, string>, height: map<string, nat>): (roots: map<string, string>)
    requires Forest(parent, height)
    ensures roots.Keys == parent.Keys
  {
    map x | x in parent :: Root(parent, height, x)
  }

  lemma RootsFacts(parent: map<string, string>, height: map<string, nat>, x: string)
    requires Forest(parent, height) && x in parent
    ensures parent[x] in parent && parent[parent[x]] in parent
    ensures RootsOf(parent, height)[parent[x]] == RootsOf(parent, height)[x]
    ensures var r := RootsOf(parent, height)[x]; r in parent && parent[r] == r
    ensures x in height && parent[x] in height && parent[parent[x]] in height
    ensures parent[x] != x ==> height[parent[parent[x]]] < height[x]
    ensures parent[x] == x ==> RootsOf(parent, height)[x] == x
  {
    RootIsRoot(parent, height, x);
  }

  lemma HalvingKeepsAll(parent: map<string, string>, height: map<string, nat>, x: string)
    requires Forest(parent, height) && x in parent && parent[x] in parent
    ensures var halved := parent[x := parent[parent[x]]];
      Forest(halved, height) && RootsOf(halved, height) == RootsOf(parent, height)
  {
    hide Root, Forest;
    var halved := parent[x := parent[parent[x]]];
    HalvingKeepsRoots(parent, height, x, x);
    forall y | y in parent ensures Root(halved, height, y) == Root(parent, height, y) {
      HalvingKeepsRoots(parent, height, x, y);
    }
  }

  lemma LinkMovesAll(parent: map<string, string>, height: map<string, nat>, a: string, b: string)
    requires Forest(parent, height) && a in parent && b in parent && parent[a] == a && parent[b] == b
    ensures var linked, raised, was := parent[a := b], Raised(parent, height, a, b), RootsOf(parent, height);
      && Forest(linked, raised)
      && RootsOf(linked, raised) == map x | x in was :: if was[x] == a then b else was[x]
  {
    hide Root, Forest, Raised;
    LinkKeepsForest(parent, height, a, b);
    var linked, raised := parent[a := b], Raised(parent, height, a, b);
    forall y | y in parent
      ensures Root(linked, raised, y) == if Root(parent, height, y) == a then b else Root(parent, height, y)
    {
      LinkMovesRoot(parent, height, a, b, raised, y);
    }
  }

  class UnionFind {
    var parent: map<string, string>
    ghost var height: map<string, nat>

    ghost predicate Valid()
      reads this
    {
      Forest(parent, height)
    }

    /** The abstract state: each item's representative. */
    ghost function Roots(): (roots: map<string, string>)
      requires Valid()
      reads this
      ensures roots.Keys == parent.Keys
    {
      RootsOf(parent, height)
    }

    constructor (items: seq<string>)
      ensures Valid() && Roots() == map x | x in items :: x
    {
      parent := map x | x in items :: x;
      height := map x | x in items :: 0;
    }

    method Find(item: string) returns (r: string)
      requires Valid() && item in Roots()
      modifies this
      ensures Valid() && Roots() == old(Roots())
      ensures r == Roots()[item]
    {
      hide Forest, RootsOf;
      var x := item;
      RootsFacts(parent, height, x);
      while parent[x] != x
        invariant Valid() && x in parent
        invariant Roots() == old(Roots()) && Roots()[x] == old(Roots())[item]
        invariant x in height
        decreases height[x]
      {
        RootsFacts(parent, height, x);
        HalvingKeepsAll(parent, height, x);
        parent := parent[x := parent[parent[x]]];
        RootsFacts(parent, height, x);
        x := parent[x];
      }
      RootsFacts(parent, height, x);
      r := x;
    }

    /** Merges the classes of `a` and `b`; every other class is unchanged. */
    method Union(a: string, b: string)
      requires Valid() && a in Roots() && b in Roots()
      modifies this
      ensures Valid()
      ensures var was := old(Roots());
        Roots() == map x | x in was :: if was[x] == was[a] then was[b] else was[x]
    {
      hide Forest, RootsOf, Raised;
      var rb := Find(b);
      var ra := Find(a);
      RootsFacts(parent, height, a);
      RootsFacts(parent, height, b);
      LinkMovesAll(parent, height, ra, rb);
      height := Raised(parent, height, ra, rb);
      parent := parent[ra := rb];
    }
  }
}
