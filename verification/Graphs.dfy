/** Simple undirected graphs between devices and terminals: components, simple paths and trees.
    These definitions stand for the graph-library calls the topology service makes. */
module Graphs {
  import opened Ids

  /** An undirected simple graph: each pair is (device, terminal). Parallel edges are one pair. */
  type Pairs = set<(Id, Id)>

  predicate Adj(E: Pairs, u: Id, v: Id) { (u, v) in E || (v, u) in E }

  function Nodes(E: Pairs): set<Id> { (set e | e in E :: e.0) + (set e | e in E :: e.1) }

  /** No node is a device in one pair and a terminal in another. */
  ghost predicate Bipartite(E: Pairs) { forall e, f | e in E && f in E :: e.0 != f.1 }

  // ---------------------------------------------------------------- components

  ghost predicate Closed(E: Pairs, S: set<Id>) {
    forall u, v :: u in S && Adj(E, u, v) ==> v in S
  }

  function Frontier(E: Pairs, S: set<Id>): set<Id> {
    set v | v in Nodes(E) && v !in S && exists u :: u in S && Adj(E, u, v)
  }

  function Grow(E: Pairs, S: set<Id>): set<Id>
    decreases Nodes(E) - S
  {
    if Frontier(E, S) == {} then S
    else
      assert Nodes(E) - (S + Frontier(E, S)) < Nodes(E) - S by {
        var v :| v in Frontier(E, S);
        assert v in Nodes(E) - S;
      }
      Grow(E, S + Frontier(E, S))
  }

  /** The connected component of `u`, found by growing a set of nodes until nothing is added. */
  function Component(E: Pairs, u: Id): set<Id> { Grow(E, {u}) }

  lemma AdjNodes(E: Pairs, u: Id, v: Id)
    requires Adj(E, u, v)
    ensures u in Nodes(E) && v in Nodes(E)
  {
    if (u, v) in E { assert (u, v).0 == u && (u, v).1 == v; } else { assert (v, u).0 == v && (v, u).1 == u; }
  }

  lemma {:induction false} GrowClosed(E: Pairs, S: set<Id>)
    ensures S <= Grow(E, S) && Closed(E, Grow(E, S)) && Grow(E, S) <= S + Nodes(E)
    decreases Nodes(E) - S
  {
    if Frontier(E, S) == {} {
      forall u, v | u in S && Adj(E, u, v) ensures v in S {
        AdjNodes(E, u, v);
        assert v in S || v in Frontier(E, S);
      }
    } else {
      var v :| v in Frontier(E, S);
      assert v in Nodes(E) - S;
      assert Nodes(E) - (S + Frontier(E, S)) < Nodes(E) - S;
      GrowClosed(E, S + Frontier(E, S));
    }
  }

  lemma {:induction false} GrowLeast(E: Pairs, S: set<Id>, T: set<Id>)
    requires S <= T && Closed(E, T)
    ensures Grow(E, S) <= T
    decreases Nodes(E) - S
  {
    if Frontier(E, S) != {} {
      var v :| v in Frontier(E, S);
      assert v in Nodes(E) - S;
      assert Nodes(E) - (S + Frontier(E, S)) < Nodes(E) - S;
      GrowLeast(E, S + Frontier(E, S), T);
    }
  }

  lemma ComponentClosed(E: Pairs, u: Id)
    ensures u in Component(E, u) && Closed(E, Component(E, u)) && Component(E, u) <= {u} + Nodes(E)
  {
    GrowClosed(E, {u});
  }

  lemma ComponentLeast(E: Pairs, u: Id, T: set<Id>)
    requires u in T && Closed(E, T)
    ensures Component(E, u) <= T
  {
    GrowLeast(E, {u}, T);
  }

  lemma ComponentSymmetric(E: Pairs, u: Id, v: Id)
    requires v in Component(E, u)
    ensures u in Component(E, v)
  {
    ComponentClosed(E, u);
    ComponentClosed(E, v);
    if u !in Component(E, v) {
      var T := Component(E, u) - Component(E, v);
      forall x, y | x in T && Adj(E, x, y) ensures y in T {
        assert Adj(E, y, x);
      }
      ComponentLeast(E, u, T);
      assert false;
    }
  }

  lemma ComponentEqual(E: Pairs, u: Id, v: Id)
    requires v in Component(E, u)
    ensures Component(E, v) == Component(E, u)
  {
    ComponentSymmetric(E, u, v);
    ComponentClosed(E, u);
    ComponentClosed(E, v);
    ComponentLeast(E, v, Component(E, u));
    ComponentLeast(E, u, Component(E, v));
  }

  lemma ComponentMonotone(E: Pairs, E': Pairs, u: Id)
    requires E <= E'
    ensures Component(E, u) <= Component(E', u)
  {
    ComponentClosed(E', u);
    forall x, y | x in Component(E', u) && Adj(E, x, y) ensures y in Component(E', u) {
      assert Adj(E', x, y);
    }
    ComponentLeast(E, u, Component(E', u));
  }

  // ---------------------------------------------------------------- simple paths

  ghost predicate Walk(E: Pairs, p: seq<Id>) {
    |p| > 0 && forall i | 0 <= i < |p| - 1 :: Adj(E, p[i], p[i+1])
  }

  ghost predicate SimplePath(E: Pairs, a: Id, b: Id, p: seq<Id>) {
    Walk(E, p) && Distinct(p) && p[0] == a && p[|p|-1] == b
  }

  lemma {:induction false} WalkInComponent(E: Pairs, p: seq<Id>, i: nat)
    requires Walk(E, p) && i < |p|
    ensures p[i] in Component(E, p[0])
  {
    ComponentClosed(E, p[0]);
    if i > 0 {
      WalkInComponent(E, p, i - 1);
      assert Adj(E, p[i-1], p[i]);
    }
  }

  lemma ExtendPath(E: Pairs, a: Id, x: Id, p: seq<Id>, y: Id)
    requires SimplePath(E, a, x, p) && Adj(E, x, y)
    ensures y !in p ==> SimplePath(E, a, y, p + [y])
    ensures exists q :: SimplePath(E, a, y, q)
  {
    if y in p {
      var i :| 0 <= i < |p| && p[i] == y;
      assert SimplePath(E, a, y, p[..i+1]);
    } else {
      assert SimplePath(E, a, y, p + [y]);
    }
  }

  /** Being in the component of `a` is exactly being the end of a simple path from `a`. */
  lemma ReachableIffSimplePath(E: Pairs, a: Id, b: Id)
    ensures b in Component(E, a) <==> exists p :: SimplePath(E, a, b, p)
  {
    if p :| SimplePath(E, a, b, p) {
      WalkInComponent(E, p, |p| - 1);
    }
    var T := set x | x in {a} + Nodes(E) && exists p :: SimplePath(E, a, x, p);
    assert SimplePath(E, a, a, [a]);
    forall x, y | x in T && Adj(E, x, y) ensures y in T {
      AdjNodes(E, x, y);
      var p :| SimplePath(E, a, x, p);
      ExtendPath(E, a, x, p, y);
    }
    ComponentLeast(E, a, T);
  }

  // ---------------------------------------------------------------- depth-first enumeration

  function PairSet(g: seq<(Id, Id)>): Pairs { set e | e in g }

  /** The neighbours of `u`, in the order in which edges were added to the graph. */
  function Neighbours(g: seq<(Id, Id)>, u: Id): seq<Id> {
    if g == [] then []
    else
      var r := Neighbours(g[..|g|-1], u);
      var e := g[|g|-1];
      var w := if e.0 == u then [e.1] else if e.1 == u then [e.0] else [];
      if w != [] && w[0] !in r then r + w else r
  }

  lemma {:induction false} NeighboursAreAdjacent(g: seq<(Id, Id)>, u: Id)
    requires Bipartite(PairSet(g))
    ensures Distinct(Neighbours(g, u))
    ensures forall v :: v in Neighbours(g, u) <==> Adj(PairSet(g), u, v)
  {
    if g != [] {
      var h := g[..|g|-1];
      var e := g[|g|-1];
      assert g == h + [e];
      assert PairSet(g) == PairSet(h) + {e};
      NeighboursAreAdjacent(h, u);
      forall v ensures v in Neighbours(g, u) <==> Adj(PairSet(g), u, v) {
        assert Adj(PairSet(g), u, v) <==> Adj(PairSet(h), u, v) || (u, v) == e || (v, u) == e;
        assert e.0 != e.1;
      }
    }
  }

  function Unvisited(g: seq<(Id, Id)>, path: seq<Id>): set<Id> {
    set x | x in Nodes(PairSet(g)) && x !in path
  }

  lemma VisitShrinks(g: seq<(Id, Id)>, path: seq<Id>, v: Id)
    requires v in Nodes(PairSet(g)) && v !in path
    ensures Unvisited(g, path + [v]) < Unvisited(g, path)
  {
    assert v in path + [v];
    forall y | y in Unvisited(g, path + [v]) ensures y in Unvisited(g, path) {
      assert y in path ==> y in path + [v];
    }
    assert v in Unvisited(g, path);
  }

  /** All simple paths to `target` that continue `path`, depth first. */
  function PathsFrom(g: seq<(Id, Id)>, path: seq<Id>, target: Id): seq<seq<Id>>
    requires path != []
    decreases Unvisited(g, path), 1, 0
  {
    var u := path[|path|-1];
    if u == target then [path]
    else PathsVia(g, path, Neighbours(g, u), target)
  }

  function PathsVia(g: seq<(Id, Id)>, path: seq<Id>, next: seq<Id>, target: Id): seq<seq<Id>>
    requires path != []
    decreases Unvisited(g, path), 0, |next|
  {
    if next == [] then []
    else
      var rest := PathsVia(g, path, next[1..], target);
      if next[0] in path || next[0] !in Nodes(PairSet(g)) then rest
      else
        VisitShrinks(g, path, next[0]);
        PathsFrom(g, path + [next[0]], target) + rest
  }

  function SimplePaths(g: seq<(Id, Id)>, a: Id, b: Id): seq<seq<Id>> { PathsFrom(g, [a], b) }

  lemma InConcat<T>(a: seq<T>, b: seq<T>, x: T)
    ensures x in a + b <==> x in a || x in b
  {
  }

  lemma {:induction false} PathsFromExact(g: seq<(Id, Id)>, path: seq<Id>, target: Id, p: seq<Id>)
    requires Bipartite(PairSet(g)) && Walk(PairSet(g), path) && Distinct(path)
    ensures p in PathsFrom(g, path, target) <==> path <= p && SimplePath(PairSet(g), path[0], target, p)
    decreases Unvisited(g, path), 1, 0
  {
    var u := path[|path|-1];
    if u == target {
      if path <= p && SimplePath(PairSet(g), path[0], target, p) {
        assert p[|path|-1] == p[|p|-1];
        assert p == path;
      }
    } else {
      NeighboursAreAdjacent(g, u);
      PathsViaExact(g, path, Neighbours(g, u), target, p);
      if path <= p && SimplePath(PairSet(g), path[0], target, p) {
        assert |p| > |path|;
        assert Adj(PairSet(g), p[|path|-1], p[|path|]);
      }
    }
  }

  lemma {:induction false} PathsViaExact(g: seq<(Id, Id)>, path: seq<Id>, next: seq<Id>, target: Id, p: seq<Id>)
    requires Bipartite(PairSet(g)) && Walk(PairSet(g), path) && Distinct(path)
    requires forall v | v in next :: Adj(PairSet(g), path[|path|-1], v)
    ensures p in PathsVia(g, path, next, target) <==>
            path <= p && |p| > |path| && p[|path|] in next && SimplePath(PairSet(g), path[0], target, p)
    decreases Unvisited(g, path), 0, |next|
  {
    if next != [] {
      var v := next[0];
      assert v in next && forall w | w in next[1..] :: w in next;
      PathsViaExact(g, path, next[1..], target, p);
      AdjNodes(PairSet(g), path[|path|-1], v);
      if v in path {
        var i :| 0 <= i < |path| && path[i] == v;
        if path <= p && |p| > |path| {
          assert p[i] == v;
        }
      } else {
        var q := path + [v];
        VisitShrinks(g, path, v);
        PathsFromExact(g, q, target, p);
        InConcat(PathsFrom(g, q, target), PathsVia(g, path, next[1..], target), p);
        assert q <= p <==> path <= p && |p| > |path| && p[|path|] == v;
      }
    }
  }

  lemma {:induction false} PathsFromDistinct(g: seq<(Id, Id)>, path: seq<Id>, target: Id)
    requires Bipartite(PairSet(g)) && Walk(PairSet(g), path) && Distinct(path)
    ensures Distinct(PathsFrom(g, path, target))
    decreases Unvisited(g, path), 1, 0
  {
    var u := path[|path|-1];
    if u != target {
      NeighboursAreAdjacent(g, u);
      PathsViaDistinct(g, path, Neighbours(g, u), target);
    }
  }

  lemma {:induction false} PathsViaDistinct(g: seq<(Id, Id)>, path: seq<Id>, next: seq<Id>, target: Id)
    requires Bipartite(PairSet(g)) && Walk(PairSet(g), path) && Distinct(path) && Distinct(next)
    requires forall v | v in next :: Adj(PairSet(g), path[|path|-1], v)
    ensures Distinct(PathsVia(g, path, next, target))
    decreases Unvisited(g, path), 0, |next|
  {
    if next != [] {
      var v := next[0];
      assert v in next && forall w | w in next[1..] :: w in next;
      var rest := PathsVia(g, path, next[1..], target);
      PathsViaDistinct(g, path, next[1..], target);
      AdjNodes(PairSet(g), path[|path|-1], v);
      if v !in path {
        var q := path + [v];
        VisitShrinks(g, path, v);
        PathsFromDistinct(g, q, target);
        var first := PathsFrom(g, q, target);
        forall p | p in first ensures p !in rest {
          PathsFromExact(g, q, target, p);
          PathsViaExact(g, path, next[1..], target, p);
          assert p[|path|] == v && v !in next[1..];
        }
        DistinctConcat(first, rest);
      }
    }
  }

  /** The enumeration returns each simple path exactly once and nothing else. */
  lemma SimplePathsExact(g: seq<(Id, Id)>, a: Id, b: Id)
    requires Bipartite(PairSet(g))
    ensures forall p :: p in SimplePaths(g, a, b) <==> SimplePath(PairSet(g), a, b, p)
    ensures Distinct(SimplePaths(g, a, b))
  {
    forall p ensures p in SimplePaths(g, a, b) <==> SimplePath(PairSet(g), a, b, p) {
      PathsFromExact(g, [a], b, p);
      if SimplePath(PairSet(g), a, b, p) { assert [a] <= p; }
    }
    PathsFromDistinct(g, [a], b);
  }
}
