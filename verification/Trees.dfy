/** A connected component is a tree by edge count exactly when simple paths from a root are unique. */
module Trees {
  import opened Ids
  import opened Graphs

  /** The edges of the subgraph induced by `S`. */
  function Within(E: Pairs, S: set<Id>): Pairs { set e | e in E && e.0 in S && e.1 in S }

  /** The library's tree test: one edge fewer than nodes, and connected. */
  predicate IsTree(E: Pairs, S: set<Id>) {
    |Within(E, S)| == |S| - 1 && forall u | u in S :: S <= Component(Within(E, S), u)
  }

  lemma ComponentWithin(E: Pairs, r: Id, u: Id)
    requires u in Component(E, r)
    ensures Component(E, r) <= Component(Within(E, Component(E, r)), u)
  {
    var S := Component(E, r);
    var T := Component(Within(E, S), u);
    ComponentClosed(E, r);
    ComponentClosed(Within(E, S), u);
    ComponentEqual(E, r, u);
    forall x, y | x in T * S && Adj(E, x, y) ensures y in T * S {
      assert Adj(Within(E, S), x, y);
    }
    ComponentLeast(E, u, T * S);
  }

  /** On a connected component the tree test is the counting test. */
  lemma ComponentIsTree(E: Pairs, r: Id)
    ensures IsTree(E, Component(E, r)) <==> |Within(E, Component(E, r))| == |Component(E, r)| - 1
  {
    forall u | u in Component(E, r) ensures Component(E, r) <= Component(Within(E, Component(E, r)), u) {
      ComponentWithin(E, r, u);
    }
  }

  // ---------------------------------------------------------------- spanning trees

  ghost predicate Spanning(E: Pairs, r: Id, S: set<Id>, parent: map<Id, Id>, depth: map<Id, nat>) {
    && r in S && parent.Keys == S - {r} && depth.Keys == S
    && forall v | v in parent ::
         parent[v] in S && Adj(E, parent[v], v) && depth[parent[v]] < depth[v]
  }

  lemma SpanningExists(E: Pairs, r: Id) returns (parent: map<Id, Id>, depth: map<Id, nat>)
    ensures Spanning(E, r, Component(E, r), parent, depth)
  {
    var K := Component(E, r);
    ComponentClosed(E, r);
    var S := {r};
    parent, depth := map[], map[r := 0];
    while S != K
      invariant S <= K && Spanning(E, r, S, parent, depth)
      decreases K - S
    {
      if Closed(E, S) {
        ComponentLeast(E, r, S);
        assert false;
      }
      var u, v :| u in S && Adj(E, u, v) && v !in S;
      S, parent, depth := S + {v}, parent[v := u], depth[v := depth[u] + 1];
    }
  }

  function PairOf(E: Pairs, u: Id, v: Id): (Id, Id) { if (u, v) in E then (u, v) else (v, u) }

  ghost function TreePairs(E: Pairs, parent: map<Id, Id>): Pairs { set v | v in parent :: PairOf(E, parent[v], v) }

  lemma TreePairsDiffer(E: Pairs, r: Id, S: set<Id>, parent: map<Id, Id>, depth: map<Id, nat>, v: Id, w: Id)
    requires Spanning(E, r, S, parent, depth) && v in parent && w in parent && v != w
    ensures PairOf(E, parent[v], v) != PairOf(E, parent[w], w)
  {
    assert depth[parent[v]] < depth[v] && depth[parent[w]] < depth[w];
  }

  lemma {:induction false} TreePairsCount(E: Pairs, r: Id, S: set<Id>, parent: map<Id, Id>, depth: map<Id, nat>,
      D: set<Id>)
    requires Spanning(E, r, S, parent, depth) && D <= parent.Keys
    ensures |(set v | v in D :: PairOf(E, parent[v], v))| == |D|
  {
    if D != {} {
      var w :| w in D;
      var D' := D - {w};
      TreePairsCount(E, r, S, parent, depth, D');
      var P := set v | v in D :: PairOf(E, parent[v], v);
      var P' := set v | v in D' :: PairOf(E, parent[v], v);
      assert P == P' + {PairOf(E, parent[w], w)};
      forall v | v in D' ensures PairOf(E, parent[v], v) != PairOf(E, parent[w], w) {
        TreePairsDiffer(E, r, S, parent, depth, v, w);
      }
    }
  }

  /** The tree edges are edges of the component, one for each node but the root. */
  lemma TreePairsFacts(E: Pairs, r: Id, parent: map<Id, Id>, depth: map<Id, nat>)
    requires Spanning(E, r, Component(E, r), parent, depth)
    ensures TreePairs(E, parent) <= Within(E, Component(E, r))
    ensures |TreePairs(E, parent)| == |Component(E, r)| - 1
  {
    var S := Component(E, r);
    TreePairsCount(E, r, S, parent, depth, parent.Keys);
    assert TreePairs(E, parent) == set v | v in parent.Keys :: PairOf(E, parent[v], v);
    assert |S - {r}| == |S| - 1;
    forall e | e in TreePairs(E, parent) ensures e in Within(E, S) {
      var v :| v in parent && e == PairOf(E, parent[v], v);
      assert Adj(E, parent[v], v);
    }
  }

  lemma SubsetOfEqualSize<T>(A: set<T>, B: set<T>)
    requires A <= B && |A| == |B|
    ensures A == B
  {
    assert B == A + (B - A);
    assert |B| == |A| + |B - A|;
  }

  // ---------------------------------------------------------------- a tree has unique simple paths

  ghost predicate Descends(r: Id, parent: map<Id, Id>, p: seq<Id>) {
    |p| > 0 && p[0] == r && forall i | 0 < i < |p| :: p[i] in parent && parent[p[i]] == p[i-1]
  }

  predicate ParentEdge(parent: map<Id, Id>, x: Id, y: Id) {
    (y in parent && parent[y] == x) || (x in parent && parent[x] == y)
  }

  lemma TreeEdgeIsParentEdge(E: Pairs, r: Id, parent: map<Id, Id>, depth: map<Id, nat>, x: Id, y: Id)
    requires Bipartite(E) && Spanning(E, r, Component(E, r), parent, depth)
    requires x in Component(E, r) && y in Component(E, r) && Adj(E, x, y)
    ensures PairOf(E, x, y) in Within(E, Component(E, r))
    ensures PairOf(E, x, y) in TreePairs(E, parent) <==> ParentEdge(parent, x, y)
  {
    var e := PairOf(E, x, y);
    assert e.0 != e.1;
    if e in TreePairs(E, parent) {
      var v :| v in parent && e == PairOf(E, parent[v], v);
    }
    if y in parent && parent[y] == x { assert PairOf(E, parent[y], y) in TreePairs(E, parent); }
    if x in parent && parent[x] == y { assert PairOf(E, parent[x], x) in TreePairs(E, parent); }
  }

  lemma {:induction false} SimplePathDescends(E: Pairs, r: Id, parent: map<Id, Id>, depth: map<Id, nat>, p: seq<Id>,
      n: nat)
    requires Bipartite(E) && Spanning(E, r, Component(E, r), parent, depth)
    requires Within(E, Component(E, r)) == TreePairs(E, parent)
    requires Walk(E, p) && Distinct(p) && p[0] == r && n < |p|
    ensures forall i | 0 < i <= n :: p[i] in parent && parent[p[i]] == p[i-1]
  {
    if n > 0 {
      SimplePathDescends(E, r, parent, depth, p, n - 1);
      WalkInComponent(E, p, n - 1);
      WalkInComponent(E, p, n);
      assert Adj(E, p[n-1], p[n]);
      TreeEdgeIsParentEdge(E, r, parent, depth, p[n-1], p[n]);
      if n > 1 {
        assert parent[p[n-1]] == p[n-2] && p[n-2] != p[n];
      }
      assert p[n] in parent && parent[p[n]] == p[n-1];
    }
  }

  lemma {:induction false} DescendsUnique(r: Id, parent: map<Id, Id>, p: seq<Id>, q: seq<Id>)
    requires r !in parent && Descends(r, parent, p) && Descends(r, parent, q)
    requires p[|p|-1] == q[|q|-1]
    ensures p == q
  {
    if |p| > 1 && |q| > 1 {
      DescendsUnique(r, parent, p[..|p|-1], q[..|q|-1]);
      assert p == p[..|p|-1] + [p[|p|-1]] && q == q[..|q|-1] + [q[|q|-1]];
    }
  }

  lemma TreeHasUniquePaths(E: Pairs, r: Id, v: Id, p: seq<Id>, q: seq<Id>)
    requires Bipartite(E) && IsTree(E, Component(E, r))
    requires SimplePath(E, r, v, p) && SimplePath(E, r, v, q)
    ensures p == q
  {
    var parent, depth := SpanningExists(E, r);
    TreePairsFacts(E, r, parent, depth);
    SubsetOfEqualSize(TreePairs(E, parent), Within(E, Component(E, r)));
    SimplePathDescends(E, r, parent, depth, p, |p| - 1);
    SimplePathDescends(E, r, parent, depth, q, |q| - 1);
    assert p[..|p|] == p && q[..|q|] == q;
    DescendsUnique(r, parent, p, q);
  }

  // ---------------------------------------------------------------- any other component has two paths to some node

  ghost predicate TwoPaths(E: Pairs, r: Id, v: Id) {
    exists p, q :: SimplePath(E, r, v, p) && SimplePath(E, r, v, q) && p != q
  }

  lemma IsTwoPaths(E: Pairs, r: Id, v: Id, p: seq<Id>, q: seq<Id>)
    requires SimplePath(E, r, v, p) && SimplePath(E, r, v, q) && p != q
    ensures TwoPaths(E, r, v)
  {
  }

  ghost function TreePath(E: Pairs, r: Id, S: set<Id>, parent: map<Id, Id>, depth: map<Id, nat>, v: Id): seq<Id>
    requires Spanning(E, r, S, parent, depth) && v in S
    decreases depth[v]
  {
    if v == r then [r] else TreePath(E, r, S, parent, depth, parent[v]) + [v]
  }

  lemma {:induction false} TreePathSimple(E: Pairs, r: Id, S: set<Id>, parent: map<Id, Id>, depth: map<Id, nat>, v: Id)
    requires Spanning(E, r, S, parent, depth) && v in S
    ensures var p := TreePath(E, r, S, parent, depth, v);
            SimplePath(E, r, v, p) && forall x | x in p :: x in S && (x == v || depth[x] < depth[v])
    decreases depth[v]
  {
    if v != r {
      TreePathSimple(E, r, S, parent, depth, parent[v]);
      var p := TreePath(E, r, S, parent, depth, parent[v]);
      assert v !in p;
      ExtendPath(E, r, parent[v], p, v);
    }
  }

  lemma {:induction false} TreePathRoot(E: Pairs, r: Id, S: set<Id>, parent: map<Id, Id>, depth: map<Id, nat>, u: Id)
    requires Spanning(E, r, S, parent, depth) && u in S && u != r
    ensures depth[r] < depth[u]
    decreases depth[u]
  {
    if parent[u] != r { TreePathRoot(E, r, S, parent, depth, parent[u]); }
  }

  lemma ExtraEdgeGivesTwoPaths(E: Pairs, r: Id, parent: map<Id, Id>, depth: map<Id, nat>, u: Id, v: Id)
    requires Spanning(E, r, Component(E, r), parent, depth)
    requires u in Component(E, r) && v in Component(E, r) && Adj(E, u, v) && u != v
    requires !ParentEdge(parent, u, v) && depth[u] <= depth[v]
    ensures TwoPaths(E, r, v)
  {
    var S := Component(E, r);
    var p, q := TreePath(E, r, S, parent, depth, u), TreePath(E, r, S, parent, depth, v);
    TreePathSimple(E, r, S, parent, depth, u);
    TreePathSimple(E, r, S, parent, depth, v);
    assert v !in p;
    ExtendPath(E, r, u, p, v);
    if u != r { TreePathRoot(E, r, S, parent, depth, u); }
    assert v != r;
    var p' := p + [v];
    var q' := TreePath(E, r, S, parent, depth, parent[v]);
    TreePathSimple(E, r, S, parent, depth, parent[v]);
    assert q == q' + [v];
    assert p'[|p'|-2] == u && q[|q|-2] == parent[v];
    IsTwoPaths(E, r, v, p', q);
  }

  lemma NotTreeHasTwoPaths(E: Pairs, r: Id) returns (v: Id)
    requires Bipartite(E) && !IsTree(E, Component(E, r))
    ensures v in Component(E, r) && TwoPaths(E, r, v)
  {
    ComponentIsTree(E, r);
    var parent, depth := SpanningExists(E, r);
    TreePairsFacts(E, r, parent, depth);
    var W, P := Within(E, Component(E, r)), TreePairs(E, parent);
    assert W != P;
    var e :| e in W && e !in P;
    var u, w := e.0, e.1;
    assert Adj(E, u, w) && u != w && PairOf(E, u, w) == e;
    TreeEdgeIsParentEdge(E, r, parent, depth, u, w);
    if depth[u] <= depth[w] {
      ExtraEdgeGivesTwoPaths(E, r, parent, depth, u, w);
      v := w;
    } else {
      ExtraEdgeGivesTwoPaths(E, r, parent, depth, w, u);
      v := u;
    }
  }

  // ---------------------------------------------------------------- moving two paths from a device to a terminal

  lemma PathPrefix(E: Pairs, r: Id, p: seq<Id>, i: nat)
    requires Walk(E, p) && Distinct(p) && p[0] == r && i < |p|
    ensures SimplePath(E, r, p[i], p[..i+1])
  {
  }

  /** A device with at most two neighbours and two simple paths from the root has a neighbour with two. */
  lemma TwoPathsReachNeighbour(E: Pairs, r: Id, d: Id, x: Id, y: Id) returns (s: Id)
    requires TwoPaths(E, r, d) && d != r
    requires forall z :: Adj(E, z, d) ==> z == x || z == y
    ensures Adj(E, s, d) && TwoPaths(E, r, s)
  {
    var p, q :| SimplePath(E, r, d, p) && SimplePath(E, r, d, q) && p != q;
    var m, n := |p| - 2, |q| - 2;
    var s1, s2 := p[m], q[n];
    assert Adj(E, p[m], p[m+1]) && Adj(E, q[n], q[n+1]);
    var p', q' := p[..m+1], q[..n+1];
    PathPrefix(E, r, p, m);
    PathPrefix(E, r, q, n);
    assert p == p' + [d] && q == q' + [d];
    assert d !in p' && d !in q';
    if s1 == s2 {
      assert p' != q';
      IsTwoPaths(E, r, s1, p', q');
      return s1;
    }
    assert Adj(E, d, s2) && Adj(E, d, s1);
    if s2 !in p {
      ExtendPath(E, r, d, p, s2);
      var t := p + [s2];
      assert d in t;
      IsTwoPaths(E, r, s2, t, q');
      return s2;
    }
    s := NeighbourOnPath(E, r, d, p, q', s2);
  }

  /** A neighbour of the last node that lies earlier on the path, reached another way as well. */
  lemma NeighbourOnPath(E: Pairs, r: Id, d: Id, p: seq<Id>, q': seq<Id>, s2: Id) returns (s: Id)
    requires SimplePath(E, r, d, p) && |p| >= 2 && SimplePath(E, r, s2, q') && d !in q'
    requires s2 in p && s2 != d && s2 != p[|p| - 2] && Adj(E, s2, d)
    ensures Adj(E, s, d) && TwoPaths(E, r, s)
  {
    var m := |p| - 2;
    var s1 := p[m];
    assert Adj(E, p[m], p[m + 1]);
    var p' := p[..m + 1];
    PathPrefix(E, r, p, m);
    assert p == p' + [d];
    var i :| 0 <= i < |p| && p[i] == s2;
    assert i < m;
    PathPrefix(E, r, p, i);
    var h := p[..i+1];
    if h != q' {
      IsTwoPaths(E, r, s2, h, q');
      return s2;
    }
    assert s1 !in h;
    ExtendPath(E, r, s2, h, d);
    assert d !in h;
    ExtendPath(E, r, d, h + [d], s1);
    var t := h + [d] + [s1];
    assert t[|h|] == d && d in t;
    IsTwoPaths(E, r, s1, t, p');
    return s1;
  }
}
