/** What the derived network state means: energisation is reachability in the closed-switch graph,
    path lists are exact, radiality is uniqueness of source paths, and load is conserved. */
module Energisation {
  import opened Ids
  import opened Graphs
  import opened Trees
  import opened Configuration
  import opened Topology

  // ---------------------------------------------------------------- reachability semantics

  /** Feeder `f` is in service and its breaker reaches the section through closed switches. */
  predicate Feeds(c: Network, states: States, sources: Sources, f: Feeder, section: Id) {
    InService(c, states, sources, f) && section in Component(Links(c, states), f.breakerId)
  }

  function Supply(c: Network, states: States, sources: Sources, section: Id): set<Id> {
    set f | f in c.feeders && Feeds(c, states, sources, f, section) :: f.id
  }

  /** The energised sections. */
  function Live(c: Network, states: States, sources: Sources): set<Id> {
    set s | s in SectionIds(c) && Supply(c, states, sources, s) != {}
  }

  // ---------------------------------------------------------------- the graph that is built

  lemma {:induction false} GraphOfLinks(c: Network, states: States, edges: seq<Edge>)
    ensures var g := GraphOf(c, states, edges);
            && PairSet(g.pairs) == (set e | e in edges && Conducts(c, states, e) :: Link(c, e))
            && g.edgeId.Keys == PairSet(g.pairs) && Distinct(g.pairs)
    ensures forall pair | pair in GraphOf(c, states, edges).edgeId ::
              exists e :: e in edges && Conducts(c, states, e) && Link(c, e) == pair
                          && e.id == GraphOf(c, states, edges).edgeId[pair]
  {
    if edges != [] {
      var n := |edges| - 1;
      var e, rest := edges[n], edges[..n];
      GraphOfLinks(c, states, rest);
      assert edges == rest + [e];
      var g, h := GraphOf(c, states, edges), GraphOf(c, states, rest);
      assert forall x :: x in edges <==> x in rest || x == e;
      if Conducts(c, states, e) {
        assert PairSet(g.pairs) == PairSet(h.pairs) + {Link(c, e)};
        assert g.edgeId.Keys == h.edgeId.Keys + {Link(c, e)};
      }
    }
  }

  /** The graph holds exactly the conducting pairs, and is bipartite between devices and terminals. */
  lemma GraphIsLinks(c: Network, states: States)
    requires Validated(c)
    ensures PairSet(DistributionGraph(c, states).pairs) == Links(c, states)
    ensures DistributionGraph(c, states).edgeId.Keys == Links(c, states)
    ensures Bipartite(Links(c, states))
  {
    hide Validated;
    var edges := Sort(c.edges, EdgeLeq);
    SortElements(c.edges, EdgeLeq);
    GraphOfLinks(c, states, edges);
    assert (set e | e in edges && Conducts(c, states, e) :: Link(c, e)) == Links(c, states);
    LinksEnds(c, states);
    IdsAreDisjoint(c);
  }

  lemma LinksEnds(c: Network, states: States)
    requires Validated(c)
    ensures forall x | x in Links(c, states) :: x.0 in DeviceIds(c) && x.1 in TerminalIds(c)
  {
    hide Validated;
    forall x | x in Links(c, states) ensures x.0 in DeviceIds(c) && x.1 in TerminalIds(c) {
      var e :| e in c.edges && Conducts(c, states, e) && x == Link(c, e);
      EdgeEnds(c, e);
    }
  }

  lemma LinkTerminalsAreSections(c: Network, states: States)
    requires WellFormed(c)
    ensures forall x | x in Links(c, states) :: x.0 in DeviceIds(c) && x.1 in SectionIds(c)
  {
    forall x | x in Links(c, states) ensures x.0 in DeviceIds(c) && x.1 in SectionIds(c) {
      var e :| e in c.edges && Conducts(c, states, e) && x == Link(c, e);
      EdgeEnds(c, e);
      DistributionEdgeEnds(c, e);
    }
  }

  // ---------------------------------------------------------------- exactness of the path lists

  lemma {:induction false} PathRecordsAt(g: Graph, f: Feeder, se: Id, s: Id, paths: seq<seq<Id>>)
    ensures |PathRecords(g, f, se, s, paths)| == |paths|
    ensures forall k | 0 <= k < |paths| :: PathRecords(g, f, se, s, paths)[k] == PathRecord(g, f, se, s, paths[k])
  {
    if paths != [] { PathRecordsAt(g, f, se, s, paths[1..]); }
  }

  /** The record the service keeps for the node path `p` of feeder `f`. */
  ghost predicate RecordsPath(c: Network, states: States, f: Feeder, s: Id, p: seq<Id>, x: SourcePath) {
    && SourceEdge(c, f).Some?
    && SimplePath(Links(c, states), f.breakerId, s, p)
    && x == PathRecord(DistributionGraph(c, states), f, SourceEdge(c, f).value.id, s, p)
  }

  lemma PathEndsAreNodes(E: Pairs, a: Id, b: Id, p: seq<Id>)
    requires SimplePath(E, a, b, p) && a != b
    ensures a in Nodes(E) && b in Nodes(E)
  {
    AdjNodes(E, p[0], p[1]);
    assert Adj(E, p[|p|-2], p[|p|-2+1]);
    AdjNodes(E, p[|p|-2], p[|p|-1]);
  }

  /** The node paths searched for a feeder and a section. */
  ghost function NodePaths(c: Network, states: States, f: Feeder, s: Id): seq<seq<Id>> {
    SimplePaths(DistributionGraph(c, states).pairs, f.breakerId, s)
  }

  lemma FeederPathsShape(c: Network, states: States, f: Feeder, s: Id)
    requires WellFormed(c) && f in c.feeders && s in SectionIds(c)
    ensures SourceEdge(c, f).Some? && Distinct(NodePaths(c, states, f, s))
    ensures forall p :: p in NodePaths(c, states, f, s) <==> SimplePath(Links(c, states), f.breakerId, s, p)
    ensures FeederPaths(c, DistributionGraph(c, states), f, s)
         == PathRecords(DistributionGraph(c, states), f, SourceEdge(c, f).value.id, s, NodePaths(c, states, f, s))
  {
    hide WellFormed, Validated, DistributionGraph, Links, SimplePath, SimplePaths, Distinct, SourceEdge, Nodes;
    WellFormedFacts(c);
    GraphIsLinks(c, states);
    BreakersAreDevices(c);
    IdsAreDisjoint(c);
    var g := DistributionGraph(c, states);
    var paths := NodePaths(c, states, f, s);
    SimplePathsExact(g.pairs, f.breakerId, s);
    assert f.breakerId in BreakerIds(c) && f.breakerId != s;
    if paths != [] {
      assert paths[0] in paths;
      PathEndsAreNodes(Links(c, states), f.breakerId, s, paths[0]);
    }
  }

  lemma FeederPathsExact(c: Network, states: States, f: Feeder, s: Id)
    requires WellFormed(c) && f in c.feeders && s in SectionIds(c)
    ensures Distinct(FeederPaths(c, DistributionGraph(c, states), f, s))
    ensures forall x :: x in FeederPaths(c, DistributionGraph(c, states), f, s)
                        <==> exists p :: RecordsPath(c, states, f, s, p, x)
  {
    hide WellFormed, Validated, DistributionGraph, Links, SimplePath, SimplePaths, SourceEdge, FeederPaths, NodePaths;
    WellFormedFacts(c);
    FeederPathsShape(c, states, f, s);
    var g := DistributionGraph(c, states);
    var paths := NodePaths(c, states, f, s);
    var se := SourceEdge(c, f).value.id;
    PathRecordsAt(g, f, se, s, paths);
    var r := FeederPaths(c, g, f, s);
    forall x ensures x in r <==> exists p :: RecordsPath(c, states, f, s, p, x) {
      if x in r {
        var k :| 0 <= k < |r| && r[k] == x;
        assert paths[k] in paths;
        assert RecordsPath(c, states, f, s, paths[k], x);
      }
      if p :| RecordsPath(c, states, f, s, p, x) {
        assert p in paths;
        var k :| 0 <= k < |paths| && paths[k] == p;
        assert r[k] == x;
      }
    }
    forall i, j | 0 <= i < j < |r| ensures r[i] != r[j] {
      assert r[i].nodes[1..] == paths[i] && r[j].nodes[1..] == paths[j];
    }
  }

  lemma {:induction false} AllFeederPathsMembers(c: Network, g: Graph, active: set<Id>, feeders: seq<Feeder>, s: Id,
      x: SourcePath)
    ensures x in AllFeederPaths(c, g, active, feeders, s) <==>
            exists f :: f in feeders && f.id in active && x in FeederPaths(c, g, f, s)
  {
    hide FeederPaths;
    if feeders != [] {
      var n := |feeders| - 1;
      var rest := feeders[..n];
      AllFeederPathsMembers(c, g, active, rest, s, x);
      assert forall f :: f in feeders <==> f in rest || f == feeders[n];
    }
  }

  lemma PathsOfFeeder(c: Network, states: States, f: Feeder, s: Id, x: SourcePath)
    requires WellFormed(c) && f in c.feeders && s in SectionIds(c)
             && x in FeederPaths(c, DistributionGraph(c, states), f, s)
    ensures x.feederId == f.id
  {
    hide WellFormed, DistributionGraph, FeederPaths, SectionIds, SimplePath;
    FeederPathsExact(c, states, f, s);
    var p :| RecordsPath(c, states, f, s, p, x);
  }

  lemma EmptyDistinct<T>()
    ensures Distinct<T>([])
  {
  }

  lemma PrefixDistinct<T>(s: seq<T>, n: nat)
    requires Distinct(s) && n < |s|
    ensures Distinct(s[..n]) && s[n] !in s[..n]
  {
  }

  lemma EarlierPathsDiffer(c: Network, states: States, active: set<Id>, rest: seq<Feeder>, f: Feeder, s: Id,
      x: SourcePath)
    requires WellFormed(c) && s in SectionIds(c) && f in c.feeders && f !in rest && forall h | h in rest ::
               h in c.feeders
    requires x in AllFeederPaths(c, DistributionGraph(c, states), active, rest, s)
    ensures x !in FeederPaths(c, DistributionGraph(c, states), f, s)
  {
    hide WellFormed, Validated, FeederPaths, DistributionGraph, SectionIds, AllFeederPaths;
    WellFormedFacts(c);
    var g := DistributionGraph(c, states);
    AllFeederPathsMembers(c, g, active, rest, s, x);
    var h :| h in rest && h.id in active && x in FeederPaths(c, g, h, s);
    PathsOfFeeder(c, states, h, s, x);
    if x in FeederPaths(c, g, f, s) { PathsOfFeeder(c, states, f, s, x); FeedersAreUnique(c, h, f); }
  }

  lemma {:induction false} AllFeederPathsDistinct(c: Network, states: States, active: set<Id>, feeders: seq<Feeder>,
      s: Id)
    requires WellFormed(c) && s in SectionIds(c) && Distinct(feeders) && forall f | f in feeders :: f in c.feeders
    ensures Distinct(AllFeederPaths(c, DistributionGraph(c, states), active, feeders, s))
  {
    hide WellFormed, Validated, FeederPaths, DistributionGraph, RecordsPath, SectionIds, Distinct;
    WellFormedFacts(c);
    if feeders != [] {
      var n := |feeders| - 1;
      var rest, f := feeders[..n], feeders[n];
      var g := DistributionGraph(c, states);
      PrefixDistinct(feeders, n);
      AllFeederPathsDistinct(c, states, active, rest, s);
      FeederPathsExact(c, states, f, s);
      var A, B := AllFeederPaths(c, g, active, rest, s), FeederPaths(c, g, f, s);
      assert forall h | h in rest :: h in feeders;
      assert f in feeders;
      forall x | x in A ensures x !in B { EarlierPathsDiffer(c, states, active, rest, f, s, x); }
      DistinctConcat(A, B);
      assert AllFeederPaths(c, g, active, feeders, s) == A + (if f.id in active then B else []);
      if f.id !in active { assert A + [] == A; }
    } else {
      EmptyDistinct<SourcePath>();
    }
  }

  /** `x` is the record of a simple path from a feeder in service to the section. */
  ghost predicate IsSourcePath(c: Network, states: States, sources: Sources, s: Id, f: Feeder, p: seq<Id>,
      x: SourcePath) {
    f in c.feeders && InService(c, states, sources, f) && RecordsPath(c, states, f, s, p, x)
  }

  lemma PathOrder()
    ensures TotalPreorder(PathLeq)
  {
    IdOrder();
    IdsOrder();
  }

  lemma FeedersSorted(c: Network)
    requires Validated(c)
    ensures Distinct(Sort(c.feeders, FeederLeq))
    ensures forall f :: f in Sort(c.feeders, FeederLeq) <==> f in c.feeders
  {
    hide Validated, Sort;
    SortElements(c.feeders, FeederLeq);
    forall i, j | 0 <= i < j < |c.feeders| ensures c.feeders[i] != c.feeders[j] {
      if c.feeders[i] == c.feeders[j] { FeederAtIsUnique(c, i, j); }
    }
    SortDistinct(c.feeders, FeederLeq);
  }

  lemma ActiveIffInService(c: Network, states: States, sources: Sources, f: Feeder)
    requires Validated(c) && f in c.feeders
    ensures f.id in ActiveFeeders(c, states, sources) <==> InService(c, states, sources, f)
  {
    hide Validated;
    if f.id in ActiveFeeders(c, states, sources) {
      var h :| h in c.feeders && InService(c, states, sources, h) && h.id == f.id;
      FeedersAreUnique(c, f, h);
    }
  }

  lemma ListedIsSourcePath(c: Network, states: States, sources: Sources, s: Id, x: SourcePath)
    requires WellFormed(c) && s in SectionIds(c)
    ensures x in AllFeederPaths(c, DistributionGraph(c, states), ActiveFeeders(c, states, sources),
                                Sort(c.feeders, FeederLeq), s)
            <==> exists f, p :: IsSourcePath(c, states, sources, s, f, p, x)
  {
    hide WellFormed, Validated, Sort, DistributionGraph, ActiveFeeders, AllFeederPaths, FeederPaths, RecordsPath;
    hide InService, FeederLeq, SectionIds, SortedBy, Distinct;
    WellFormedFacts(c);
    var g, active, feeders := DistributionGraph(c, states), ActiveFeeders(c, states, sources),
      Sort(c.feeders, FeederLeq);
    FeedersSorted(c);
    AllFeederPathsMembers(c, g, active, feeders, s, x);
    if x in AllFeederPaths(c, g, active, feeders, s) {
      var f :| f in feeders && f.id in active && x in FeederPaths(c, g, f, s);
      FeederPathsExact(c, states, f, s);
      ActiveIffInService(c, states, sources, f);
      var p :| RecordsPath(c, states, f, s, p, x);
      assert IsSourcePath(c, states, sources, s, f, p, x);
    }
    if f, p :| IsSourcePath(c, states, sources, s, f, p, x) {
      FeederPathsExact(c, states, f, s);
      ActiveIffInService(c, states, sources, f);
    }
  }

  /** Each simple source path is listed exactly once, nothing else is, and the list is sorted. */
  lemma SourcePathsExact(c: Network, states: States, sources: Sources, s: Id)
    requires WellFormed(c) && s in SectionIds(c)
    ensures forall x :: x in SectionPaths(c, states, sources, s)
                        <==> exists f, p :: IsSourcePath(c, states, sources, s, f, p, x)
    ensures Distinct(SectionPaths(c, states, sources, s))
    ensures SortedBy(SectionPaths(c, states, sources, s), PathLeq)
  {
    hide WellFormed, Validated, Sort, DistributionGraph, ActiveFeeders, AllFeederPaths, IsSourcePath, Distinct;
    hide SortedBy, PathLeq, FeederLeq, SectionIds;
    WellFormedFacts(c);
    var g, active, feeders := DistributionGraph(c, states), ActiveFeeders(c, states, sources),
      Sort(c.feeders, FeederLeq);
    FeedersSorted(c);
    var all := AllFeederPaths(c, g, active, feeders, s);
    AllFeederPathsDistinct(c, states, active, feeders, s);
    SortElements(all, PathLeq);
    SortDistinct(all, PathLeq);
    PathOrder();
    SortSorted(all, PathLeq);
    forall x ensures x in all <==> exists f, p :: IsSourcePath(c, states, sources, s, f, p, x) {
      ListedIsSourcePath(c, states, sources, s, x);
    }
  }

  // ---------------------------------------------------------------- the edges of a path

  /** The edge conducts, links the pair and carries the name. */
  predicate Named(c: Network, states: States, e: Edge, x: (Id, Id), name: Id) {
    Conducts(c, states, e) && Link(c, e) == x && e.id == name
  }

  /** Every pair of the graph keeps the name of a conducting edge that joins it: of several parallel ones the
      last in identifier order. */
  lemma {:induction false} PairIsNamed(c: Network, states: States, edges: seq<Edge>, x: (Id, Id)) returns (e: Edge)
    requires x in GraphOf(c, states, edges).edgeId && SortedBy(edges, EdgeLeq)
    ensures e in edges && Named(c, states, e, x, GraphOf(c, states, edges).edgeId[x])
    ensures forall o | o in edges && Conducts(c, states, o) && Link(c, o) == x :: EdgeLeq(o, e)
  {
    hide Conducts, Link, IdLeq;
    IdOrder();
    var n := |edges| - 1;
    forall o | o in edges ensures EdgeLeq(o, edges[n]) {
      var k :| 0 <= k < |edges| && edges[k] == o;
      assert EdgeLeq(edges[n], edges[n]);
    }
    if Conducts(c, states, edges[n]) && x == Link(c, edges[n]) {
      e := edges[n];
    } else {
      assert x in GraphOf(c, states, edges[..n]).edgeId;
      e := PairIsNamed(c, states, edges[..n], x);
      assert forall o :: o in edges <==> o in edges[..n] || o == edges[n];
    }
  }

  /** The edge is configured, conducting, joins the two nodes, and is the last in identifier order to do so. */
  ghost predicate Joins(c: Network, states: States, name: Id, u: Id, v: Id) {
    exists e :: && e in c.edges && (Named(c, states, e, (u, v), name) || Named(c, states, e, (v, u), name))
                && forall o | o in c.edges && Conducts(c, states, o) && Link(c, o) in {(u, v), (v, u)} :: EdgeLeq(o, e)
  }

  lemma NameJoins(c: Network, states: States, u: Id, v: Id)
    requires Validated(c) && Adj(Links(c, states), u, v)
    ensures |EdgeName(DistributionGraph(c, states), u, v)| == 1
    ensures Joins(c, states, EdgeName(DistributionGraph(c, states), u, v)[0], u, v)
  {
    hide Validated, Links, Named, Sort, EdgeLeq, GraphOf, Conducts, Link;
    var g := DistributionGraph(c, states);
    GraphIsLinks(c, states);
    SortElements(c.edges, EdgeLeq);
    EdgesSorted(c);
    var x := if (u, v) in g.edgeId then (u, v) else (v, u);
    assert x in g.edgeId;
    var e := PairIsNamed(c, states, Sort(c.edges, EdgeLeq), x);
    assert e in c.edges;
    forall o | o in c.edges && Conducts(c, states, o) && Link(c, o) in {(u, v), (v, u)} ensures EdgeLeq(o, e) {
      LinkTurnsOneWay(c, states, o, x);
      assert o in Sort(c.edges, EdgeLeq);
    }
  }

  lemma EdgesSorted(c: Network)
    ensures SortedBy(Sort(c.edges, EdgeLeq), EdgeLeq)
  {
    hide IdLeq;
    IdOrder();
    SortSorted(c.edges, EdgeLeq);
  }

  /** A link leads from a device to a terminal, so a pair is a link in one direction at most. */
  lemma LinkTurnsOneWay(c: Network, states: States, o: Edge, x: (Id, Id))
    requires Validated(c) && o in c.edges && x in Links(c, states) && Link(c, o) in {x, (x.1, x.0)}
    ensures Link(c, o) == x
  {
    hide Validated;
    LinksEnds(c, states);
    IdsAreDisjoint(c);
    EdgeEnds(c, o);
  }

  lemma {:induction false} NamesJoin(c: Network, states: States, p: seq<Id>)
    requires Validated(c) && |p| >= 1 && forall i | 0 <= i < |p| - 1 :: Adj(Links(c, states), p[i], p[i + 1])
    ensures |EdgeNames(DistributionGraph(c, states), p)| == |p| - 1
    ensures forall i | 0 <= i < |p| - 1 :: Joins(c, states, EdgeNames(DistributionGraph(c, states), p)[i], p[i],
                                                 p[i + 1])
  {
    hide Validated, Links, DistributionGraph, Joins;
    if |p| >= 2 {
      NameJoins(c, states, p[0], p[1]);
      forall i | 0 <= i < |p| - 2 ensures Adj(Links(c, states), p[1..][i], p[1..][i + 1]) {
        assert Adj(Links(c, states), p[i + 1], p[i + 2]);
      }
      NamesJoin(c, states, p[1..]);
      var all, rest := EdgeNames(DistributionGraph(c, states), p), EdgeNames(DistributionGraph(c, states), p[1..]);
      assert all == EdgeName(DistributionGraph(c, states), p[0], p[1]) + rest;
      forall i | 0 <= i < |p| - 1 ensures Joins(c, states, all[i], p[i], p[i + 1]) {
        if i > 0 { assert all[i] == rest[i - 1] && p[1..][i - 1] == p[i]; }
      }
    }
  }

  /** The edge is the path's first and joins its source and breaker. */
  predicate LeadsIn(e: Edge, x: SourcePath) {
    x.edges != [] && e.id == x.edges[0] && x.sourceId in {e.a, e.b} && x.breakerId in {e.a, e.b}
  }

  /** The edge list of a source path pairs with its nodes: the first edge is the feeder's source edge and
      each further one is a closed configured edge between consecutive nodes. */
  lemma PathEdgesJoinNodes(c: Network, states: States, sources: Sources, s: Id, x: SourcePath)
    requires WellFormed(c) && s in SectionIds(c) && x in SectionPaths(c, states, sources, s)
    ensures |x.nodes| == |x.edges| + 1 && |x.edges| >= 1 && x.nodes[0] == x.sourceId && x.nodes[1] == x.breakerId
            && x.nodes[|x.nodes|-1] == s
    ensures exists e :: e in c.edges && LeadsIn(e, x)
    ensures forall i | 1 <= i < |x.edges| :: Joins(c, states, x.edges[i], x.nodes[i], x.nodes[i + 1])
  {
    hide WellFormed, Validated, SectionPaths, SectionIds, Links, DistributionGraph, SortedBy, Distinct, PathLeq, Joins;
    hide InService, SourceEdge;
    WellFormedFacts(c);
    SourcePathsExact(c, states, sources, s);
    var f, p :| IsSourcePath(c, states, sources, s, f, p, x);
    NamesJoin(c, states, p);
    var names := EdgeNames(DistributionGraph(c, states), p);
    assert x.nodes == [f.sourceId] + p && x.edges == [SourceEdge(c, f).value.id] + names;
    assert SourceEdge(c, f).value in c.edges && LeadsIn(SourceEdge(c, f).value, x);
    forall i | 1 <= i < |x.edges| ensures Joins(c, states, x.edges[i], x.nodes[i], x.nodes[i + 1]) {
      assert x.edges[i] == names[i - 1] && x.nodes[i] == p[i - 1] && x.nodes[i + 1] == p[i];
    }
  }

  // ---------------------------------------------------------------- energised iff reachable

  lemma FeedsHasPath(c: Network, states: States, sources: Sources, f: Feeder, s: Id) returns (p: seq<Id>, x: SourcePath)
    requires WellFormed(c) && f in c.feeders && s in SectionIds(c) && Feeds(c, states, sources, f, s)
    ensures IsSourcePath(c, states, sources, s, f, p, x)
    ensures x in SectionPaths(c, states, sources, s)
  {
    hide WellFormed, Validated, SectionPaths, Links, Component, SectionIds, SortedBy, Distinct, PathLeq, SimplePath;
    hide DistributionGraph;
    WellFormedFacts(c);
    ReachableIffSimplePath(Links(c, states), f.breakerId, s);
    p :| SimplePath(Links(c, states), f.breakerId, s, p);
    x := PathRecord(DistributionGraph(c, states), f, SourceEdge(c, f).value.id, s, p);
    assert IsSourcePath(c, states, sources, s, f, p, x);
    SourcePathsExact(c, states, sources, s);
  }

  lemma SourcePathFeeds(c: Network, states: States, sources: Sources, s: Id, f: Feeder, p: seq<Id>, x: SourcePath)
    requires IsSourcePath(c, states, sources, s, f, p, x)
    ensures Feeds(c, states, sources, f, s)
  {
    hide Links;
    ReachableIffSimplePath(Links(c, states), f.breakerId, s);
  }

  lemma RecordsFeeder(c: Network, states: States, sources: Sources, s: Id, f: Feeder, p: seq<Id>, x: SourcePath)
    requires IsSourcePath(c, states, sources, s, f, p, x)
    ensures RecordsPath(c, states, f, s, p, x) && x.feederId == f.id
  {
    hide Links, DistributionGraph;
  }

  /** A section's listed feeders are exactly the in-service feeders that reach it, so it is
      energised exactly when one does. */
  lemma EnergisedIffReachable(c: Network, states: States, sources: Sources, s: Id)
    requires WellFormed(c) && s in SectionIds(c)
    ensures FeedersOfPaths(SectionPaths(c, states, sources, s)) == Supply(c, states, sources, s)
    ensures SectionPaths(c, states, sources, s) != [] <==> s in Live(c, states, sources)
  {
    hide WellFormed, SectionPaths, IsSourcePath, Feeds, SectionIds, SortedBy, Distinct, PathLeq;
    var paths := SectionPaths(c, states, sources, s);
    SourcePathsExact(c, states, sources, s);
    forall x | x in paths ensures x.feederId in Supply(c, states, sources, s) {
      PathFeedsSection(c, states, sources, s, x);
    }
    forall id | id in Supply(c, states, sources, s) ensures id in FeedersOfPaths(paths) {
      var f :| f in c.feeders && Feeds(c, states, sources, f, s) && f.id == id;
      var p, x := FeedsHasPath(c, states, sources, f, s);
      RecordsFeeder(c, states, sources, s, f, p, x);
    }
    if paths != [] {
      assert paths[0] in paths && paths[0].feederId in FeedersOfPaths(paths);
    } else {
      assert FeedersOfPaths(paths) == {};
    }
  }

  lemma PathFeedsSection(c: Network, states: States, sources: Sources, s: Id, x: SourcePath)
    requires WellFormed(c) && s in SectionIds(c) && x in SectionPaths(c, states, sources, s)
    ensures x.feederId in Supply(c, states, sources, s)
  {
    hide WellFormed, SectionPaths, SectionIds, SortedBy, Distinct, PathLeq, RecordsPath, Feeds;
    SourcePathsExact(c, states, sources, s);
    var f, p :| IsSourcePath(c, states, sources, s, f, p, x);
    RecordsFeeder(c, states, sources, s, f, p, x);
    SourcePathFeeds(c, states, sources, s, f, p, x);
  }

  /** Every switch closed in `states` is closed in `states'`. */
  ghost predicate ClosesMore(states: States, states': States) {
    forall d :: IsClosed(states, d) ==> IsClosed(states', d)
  }

  lemma LinksMonotone(c: Network, states: States, states': States)
    requires ClosesMore(states, states')
    ensures Links(c, states) <= Links(c, states')
  {
    forall x | x in Links(c, states) ensures x in Links(c, states') {
      var e :| e in c.edges && Conducts(c, states, e) && Link(c, e) == x;
      assert Conducts(c, states', e);
    }
  }

  /** Closing switches only adds supply; opening them only removes it. */
  lemma SupplyMonotone(c: Network, states: States, states': States, sources: Sources, s: Id)
    requires ClosesMore(states, states')
    ensures Supply(c, states, sources, s) <= Supply(c, states', sources, s)
  {
    LinksMonotone(c, states, states');
    forall id | id in Supply(c, states, sources, s) ensures id in Supply(c, states', sources, s) {
      var f :| f in c.feeders && Feeds(c, states, sources, f, s) && f.id == id;
      ComponentMonotone(Links(c, states), Links(c, states'), f.breakerId);
      assert Feeds(c, states', sources, f, s);
    }
  }

  lemma LiveMonotone(c: Network, states: States, states': States, sources: Sources)
    requires ClosesMore(states, states')
    ensures Live(c, states, sources) <= Live(c, states', sources)
  {
    forall s | s in Live(c, states, sources) ensures s in Live(c, states', sources) {
      SupplyMonotone(c, states, states', sources, s);
    }
  }

  // ---------------------------------------------------------------- radiality

  lemma SmallSet<T>(S: set<T>, a: T, b: T)
    requires a in S && b in S && a != b
    ensures |S| > 1
  {
    assert {a, b} <= S;
    assert S == {a, b} + (S - {a, b});
  }

  lemma InjectionOfFeeder(c: Network, states: States, sources: Sources, f: Feeder)
    requires Validated(c) && f in c.feeders && InService(c, states, sources, f)
    ensures f.breakerId in Injections(c, ActiveFeeders(c, states, sources))
  {
  }

  /** A breaker that injects belongs to a feeder in service. */
  lemma FeederOfInjection(c: Network, states: States, sources: Sources, b: Id) returns (f: Feeder)
    requires Validated(c) && b in Injections(c, ActiveFeeders(c, states, sources))
    ensures f in c.feeders && InService(c, states, sources, f) && f.breakerId == b
  {
    hide Validated;
    f :| f in c.feeders && f.id in ActiveFeeders(c, states, sources) && f.breakerId == b;
    ActiveIffInService(c, states, sources, f);
  }

  /** A component that is not improper is a tree with one injection where it is fed. */
  lemma ProperComponent(c: Network, states: States, sources: Sources, f: Feeder, h: Feeder, s: Id)
    requires WellFormed(c) && s in SectionIds(c) && f in c.feeders && h in c.feeders
    requires Feeds(c, states, sources, f, s) && Feeds(c, states, sources, h, s)
    requires !Improper(c, Links(c, states), ActiveFeeders(c, states, sources), Component(Links(c, states), s))
    ensures f == h && IsTree(Links(c, states), Component(Links(c, states), f.breakerId))
  {
    hide WellFormed, Validated, Links, ActiveFeeders, Injections, InService, IsTree, Component, Nodes;
    WellFormedFacts(c);
    var E, active := Links(c, states), ActiveFeeders(c, states, sources);
    ComponentEqual(E, f.breakerId, s);
    ComponentEqual(E, h.breakerId, s);
    ComponentClosed(E, f.breakerId);
    ComponentClosed(E, h.breakerId);
    InjectionOfFeeder(c, states, sources, f);
    InjectionOfFeeder(c, states, sources, h);
    var I := Component(E, s) * Injections(c, active);
    assert f.breakerId in I && h.breakerId in I;
    if f.breakerId != h.breakerId { SmallSet(I, f.breakerId, h.breakerId); }
    BreakersAreUnique(c, f, h);
  }

  lemma FedIsInGraph(c: Network, states: States, sources: Sources, f: Feeder, s: Id)
    requires WellFormed(c) && s in SectionIds(c) && f in c.feeders && Feeds(c, states, sources, f, s)
    ensures s in Nodes(Links(c, states)) && Component(Links(c, states), s) == Component(Links(c, states), f.breakerId)
  {
    hide WellFormed, Validated, Links, InService, Component, Nodes;
    WellFormedFacts(c);
    ComponentEqual(Links(c, states), f.breakerId, s);
    ComponentClosed(Links(c, states), f.breakerId);
    IdsAreDisjoint(c);
    BreakersAreDevices(c);
    assert f.breakerId in BreakerIds(c) && s != f.breakerId;
  }

  /** In a radial network the component of a fed section is a tree with one injection. */
  lemma RadialComponent(c: Network, states: States, sources: Sources, f: Feeder, h: Feeder, s: Id)
    requires WellFormed(c) && s in SectionIds(c) && f in c.feeders && h in c.feeders
    requires RadialityOf(c, Links(c, states), ActiveFeeders(c, states, sources)) == Radial
    requires Feeds(c, states, sources, f, s) && Feeds(c, states, sources, h, s)
    ensures f == h && IsTree(Links(c, states), Component(Links(c, states), f.breakerId))
  {
    hide WellFormed, Links, ActiveFeeders, Improper, InService, IsTree, Component, Nodes, Feeds;
    FedIsInGraph(c, states, sources, f, s);
    RadialIsProper(c, Links(c, states), ActiveFeeders(c, states, sources), s);
    ProperComponent(c, states, sources, f, h, s);
  }

  lemma RadialIsProper(c: Network, E: Pairs, active: set<Id>, n: Id)
    requires RadialityOf(c, E, active) == Radial && n in Nodes(E)
    ensures !Improper(c, E, active, Component(E, n))
  {
    hide Improper, Component, Nodes;
    assert Improper(c, E, active, Component(E, n))
           ==> Component(E, n) * SectionIds(c) in ImproperComponents(c, E, active);
  }

  /** A section of a component that is not improper has at most one source path. */
  lemma ProperHasOnePath(c: Network, states: States, sources: Sources, s: Id, x: SourcePath, y: SourcePath)
    requires WellFormed(c) && s in SectionIds(c)
    requires !Improper(c, Links(c, states), ActiveFeeders(c, states, sources), Component(Links(c, states), s))
    requires x in SectionPaths(c, states, sources, s) && y in SectionPaths(c, states, sources, s)
    ensures x == y
  {
    hide WellFormed, Validated, SectionPaths, Improper, Links, Feeds, IsTree, Component, DistributionGraph;
    hide ActiveFeeders;
    WellFormedFacts(c);
    var E := Links(c, states);
    GraphIsLinks(c, states);
    SourcePathsExact(c, states, sources, s);
    var f, p :| IsSourcePath(c, states, sources, s, f, p, x);
    var h, q :| IsSourcePath(c, states, sources, s, h, q, y);
    SourcePathFeeds(c, states, sources, s, f, p, x);
    SourcePathFeeds(c, states, sources, s, h, q, y);
    ProperComponent(c, states, sources, f, h, s);
    TreeHasUniquePaths(E, f.breakerId, s, p, q);
  }

  lemma PathIsInGraph(c: Network, states: States, sources: Sources, s: Id, x: SourcePath)
    requires WellFormed(c) && s in SectionIds(c) && x in SectionPaths(c, states, sources, s)
    ensures s in Nodes(Links(c, states))
  {
    hide WellFormed, SectionPaths, Links, Feeds, Nodes, IsSourcePath;
    SourcePathsExact(c, states, sources, s);
    var f, p :| IsSourcePath(c, states, sources, s, f, p, x);
    SourcePathFeeds(c, states, sources, s, f, p, x);
    SourcePathFeeder(c, states, sources, s, f, p, x);
    FedIsInGraph(c, states, sources, f, s);
  }

  lemma SourcePathFeeder(c: Network, states: States, sources: Sources, s: Id, f: Feeder, p: seq<Id>, x: SourcePath)
    requires IsSourcePath(c, states, sources, s, f, p, x)
    ensures f in c.feeders
  {
    hide Links, InService;
  }

  lemma RootHasOnePath(E: Pairs, r: Id)
    ensures !TwoPaths(E, r, r)
  {
    forall p | SimplePath(E, r, r, p) ensures p == [r] {
      assert p[0] == p[|p|-1];
    }
  }

  lemma TwoListed<T>(s: seq<T>, x: T, y: T)
    requires x in s && y in s && x != y
    ensures |s| > 1
  {
  }

  lemma TwoNodePathsListed(c: Network, states: States, sources: Sources, f: Feeder, s: Id)
    requires WellFormed(c) && s in SectionIds(c) && f in c.feeders && InService(c, states, sources, f)
    requires TwoPaths(Links(c, states), f.breakerId, s)
    ensures |SectionPaths(c, states, sources, s)| > 1
  {
    hide WellFormed, Validated, SectionPaths, Links, SectionIds, SortedBy, Distinct, PathLeq, SimplePath;
    hide DistributionGraph;
    WellFormedFacts(c);
    var p, q :| SimplePath(Links(c, states), f.breakerId, s, p) && SimplePath(Links(c, states), f.breakerId, s, q)
      && p != q;
    var g, se := DistributionGraph(c, states), SourceEdge(c, f).value.id;
    var x, y := PathRecord(g, f, se, s, p), PathRecord(g, f, se, s, q);
    assert x.nodes[1..] == p && y.nodes[1..] == q;
    assert IsSourcePath(c, states, sources, s, f, p, x) && IsSourcePath(c, states, sources, s, f, q, y);
    SourcePathsExact(c, states, sources, s);
    TwoListed(SectionPaths(c, states, sources, s), x, y);
  }

  lemma NeighbourIsSection(c: Network, states: States, d: Id, t: Id)
    requires WellFormed(c) && d in DeviceIds(c) && Adj(Links(c, states), d, t)
    ensures t in SectionIds(c) && (d, t) in Links(c, states)
  {
    hide WellFormed, Validated;
    WellFormedFacts(c);
    LinkTerminalsAreSections(c, states);
    IdsAreDisjoint(c);
  }

  /** A device's neighbours are the ends of its two edges. */
  lemma NeighbourByEdge(c: Network, states: States, d: Id, z: Id, i: nat, j: nat)
    requires WellFormed(c) && d in DeviceIds(c) && Adj(Links(c, states), d, z) && i < |c.edges| && j < |c.edges|
    requires forall k | 0 <= k < |c.edges| && DeviceEnd(c, c.edges[k]) == d :: k == i || k == j
    ensures z == TerminalEnd(c, c.edges[i]) || z == TerminalEnd(c, c.edges[j])
  {
    hide WellFormed;
    NeighbourIsSection(c, states, d, z);
    var e :| e in c.edges && Conducts(c, states, e) && Link(c, e) == (d, z);
    var k :| 0 <= k < |c.edges| && c.edges[k] == e;
  }

  /** A fed component that is not a tree holds a section with two source paths. */
  lemma CycleGivesTwoPaths(c: Network, states: States, sources: Sources, f: Feeder) returns (s: Id)
    requires WellFormed(c) && f in c.feeders && InService(c, states, sources, f)
    requires !IsTree(Links(c, states), Component(Links(c, states), f.breakerId))
    ensures s in SectionIds(c) && |SectionPaths(c, states, sources, s)| > 1
    ensures s in Component(Links(c, states), f.breakerId)
  {
    hide WellFormed, Validated, SectionPaths, Links, Component, IsTree, InService, SimplePath;
    WellFormedFacts(c);
    var E := Links(c, states);
    GraphIsLinks(c, states);
    var v := NotTreeHasTwoPaths(E, f.breakerId);
    RootHasOnePath(E, f.breakerId);
    ComponentClosed(E, f.breakerId);
    LinkTerminalsAreSections(c, states);
    if v in SectionIds(c) {
      s := v;
    } else {
      assert v in Nodes(E) && v in DeviceIds(c);
      var i, j := DeviceEdges(c, v);
      forall z | Adj(E, z, v) ensures z == TerminalEnd(c, c.edges[i]) || z == TerminalEnd(c, c.edges[j]) {
        NeighbourByEdge(c, states, v, z, i, j);
      }
      s := TwoPathsReachNeighbour(E, f.breakerId, v, TerminalEnd(c, c.edges[i]), TerminalEnd(c, c.edges[j]));
      NeighbourIsSection(c, states, v, s);
    }
    TwoNodePathsListed(c, states, sources, f, s);
    ReachableIffSimplePath(E, f.breakerId, s);
    var p :| SimplePath(E, f.breakerId, s, p);
  }

  /** Two feeders injecting into one component give a section two source paths. */
  lemma TwoFeedersGiveTwoPaths(c: Network, states: States, sources: Sources, f: Feeder, h: Feeder, s: Id)
    requires WellFormed(c) && s in SectionIds(c) && f in c.feeders && h in c.feeders && f.id != h.id
    requires Feeds(c, states, sources, f, s) && Feeds(c, states, sources, h, s)
    ensures |SectionPaths(c, states, sources, s)| > 1
  {
    hide WellFormed, SectionPaths, SectionIds, Feeds, IsSourcePath;
    var p, x := FeedsHasPath(c, states, sources, f, s);
    var q, y := FeedsHasPath(c, states, sources, h, s);
    RecordsFeeder(c, states, sources, s, f, p, x);
    RecordsFeeder(c, states, sources, s, h, q, y);
    TwoListed(SectionPaths(c, states, sources, s), x, y);
    assert x.feederId != y.feederId;
  }

  lemma BreakerHasNeighbour(c: Network, states: States, b: Id) returns (s: Id)
    requires WellFormed(c) && b in BreakerIds(c) && b in Nodes(Links(c, states))
    ensures s in SectionIds(c) && Adj(Links(c, states), b, s)
  {
    hide WellFormed, Validated, Links;
    WellFormedFacts(c);
    var E := Links(c, states);
    BreakersAreDevices(c);
    LinkTerminalsAreSections(c, states);
    IdsAreDisjoint(c);
    var x :| x in E && (x.0 == b || x.1 == b);
    s := x.1;
  }

  /** An improper component holds a section with two source paths. */
  lemma ImproperGivesTwoPaths(c: Network, states: States, sources: Sources, n: Id) returns (s: Id)
    requires WellFormed(c) && n in Nodes(Links(c, states))
    requires Improper(c, Links(c, states), ActiveFeeders(c, states, sources), Component(Links(c, states), n))
    ensures s in SectionIds(c) && |SectionPaths(c, states, sources, s)| > 1 && s in Component(Links(c, states), n)
  {
    hide WellFormed, Validated, SectionPaths, Links, ActiveFeeders, Injections, IsTree, Component, Nodes, InService;
    hide SectionIds, Bipartite;
    WellFormedFacts(c);
    var E, active := Links(c, states), ActiveFeeders(c, states, sources);
    var K := Component(E, n);
    var I := K * Injections(c, active);
    var b :| b in I;
    var f := FeederOfInjection(c, states, sources, b);
    ComponentEqual(E, n, b);
    if !IsTree(E, K) {
      s := CycleGivesTwoPaths(c, states, sources, f);
    } else {
      assert I - {b} == {} ==> I == {b};
      var b2 :| b2 in I - {b};
      ComponentEqual(E, n, b2);
      ComponentClosed(E, n);
      InjectionInGraph(E, n, b);
      s := TwoInjectionsGiveTwoPaths(c, states, sources, b, b2);
    }
  }

  lemma InjectionInGraph(E: Pairs, n: Id, b: Id)
    requires n in Nodes(E) && b in Component(E, n)
    ensures b in Nodes(E)
  {
    hide Component, Nodes;
    ComponentClosed(E, n);
  }

  lemma TwoInjectionsGiveTwoPaths(c: Network, states: States, sources: Sources, b: Id, b2: Id) returns (s: Id)
    requires WellFormed(c) && b != b2 && b in Nodes(Links(c, states))
    requires {b, b2} <= Injections(c, ActiveFeeders(c, states, sources))
    requires Component(Links(c, states), b) == Component(Links(c, states), b2)
    ensures s in SectionIds(c) && |SectionPaths(c, states, sources, s)| > 1 && s in Component(Links(c, states), b)
  {
    hide WellFormed, Validated, SectionPaths, Links, ActiveFeeders, Injections, Component, Nodes, InService, SectionIds;
    WellFormedFacts(c);
    var f := FeederOfInjection(c, states, sources, b);
    var h := FeederOfInjection(c, states, sources, b2);
    assert b in BreakerIds(c);
    s := BreakerHasNeighbour(c, states, b);
    ComponentClosed(Links(c, states), b);
    if f.id == h.id { FeedersAreUnique(c, f, h); }
    TwoFeedersGiveTwoPaths(c, states, sources, f, h, s);
  }

  /** The status is RADIAL exactly when no section has two source paths over all active feeders. */
  lemma RadialIffUniquePaths(c: Network, i: Inputs)
    requires WellFormed(c)
    ensures TopologyOf(c, i).radiality == Radial <==>
            forall s | s in SectionIds(c) :: |TopologyOf(c, i).sections[s].paths| <= 1
  {
    hide WellFormed, Validated, SectionPaths, Links, ActiveFeeders, Improper, FeederLoadOf, ProofOf, Component, Nodes;
    hide DistributionGraph, SectionIds;
    WellFormedFacts(c);
    GraphIsLinks(c, i.states);
    var E, active := Links(c, i.states), ActiveFeeders(c, i.states, i.sources);
    if RadialityOf(c, E, active) == Radial {
      forall s | s in SectionIds(c) ensures |SectionPaths(c, i.states, i.sources, s)| <= 1 {
        var paths := SectionPaths(c, i.states, i.sources, s);
        if |paths| > 1 {
          PathIsInGraph(c, i.states, i.sources, s, paths[0]);
          RadialIsProper(c, E, active, s);
          SourcePathsExact(c, i.states, i.sources, s);
          ProperHasOnePath(c, i.states, i.sources, s, paths[0], paths[1]);
        }
      }
    } else {
      var bad :| bad in ImproperComponents(c, E, active);
      var n :| n in Nodes(E) && Improper(c, E, active, Component(E, n));
      var s := ImproperGivesTwoPaths(c, i.states, i.sources, n);
    }
  }

  /** The sections a feeder in service reaches. */
  function Reached(c: Network, states: States, sources: Sources, f: Feeder): set<Id> {
    set s | s in SectionIds(c) && Feeds(c, states, sources, f, s)
  }

  /** A loop is reported for exactly what a feeder in service reaches when some section of it has more than
      one source path. */
  lemma LoopsMean(c: Network, i: Inputs, S: set<Id>)
    requires WellFormed(c)
    ensures S in TopologyOf(c, i).loops <==>
            exists f, s :: && f in c.feeders && InService(c, i.states, i.sources, f)
                           && S == Reached(c, i.states, i.sources, f)
                           && s in S && |SectionPaths(c, i.states, i.sources, s)| > 1
  {
    hide WellFormed, Validated, SectionPaths, Links, ActiveFeeders, Improper, FeederLoadOf, ProofOf, Component, Nodes;
    hide DistributionGraph, SectionIds, InService, Injections, SectionStates, RadialityOf;
    WellFormedFacts(c);
    GraphIsLinks(c, i.states);
    var E, active := Links(c, i.states), ActiveFeeders(c, i.states, i.sources);
    if S in ImproperComponents(c, E, active) {
      var n :| n in Nodes(E) && Improper(c, E, active, Component(E, n)) && Component(E, n) * SectionIds(c) == S;
      var s := ImproperGivesTwoPaths(c, i.states, i.sources, n);
      var f := InjectionOfImproper(c, i.states, i.sources, n);
      ReachedIsComponent(c, i.states, i.sources, f);
      assert s in S && S == Reached(c, i.states, i.sources, f);
    }
    forall f, s | f in c.feeders && InService(c, i.states, i.sources, f) && S == Reached(c, i.states, i.sources, f)
                  && s in S && |SectionPaths(c, i.states, i.sources, s)| > 1
      ensures S in ImproperComponents(c, E, active)
    {
      var paths := SectionPaths(c, i.states, i.sources, s);
      ReachedIsComponent(c, i.states, i.sources, f);
      FedIsInGraph(c, i.states, i.sources, f, s);
      SourcePathsExact(c, i.states, i.sources, s);
      if !Improper(c, E, active, Component(E, s)) {
        ProperHasOnePath(c, i.states, i.sources, s, paths[0], paths[1]);
      }
    }
  }

  lemma InjectionOfImproper(c: Network, states: States, sources: Sources, n: Id) returns (f: Feeder)
    requires WellFormed(c) && n in Nodes(Links(c, states))
    requires Improper(c, Links(c, states), ActiveFeeders(c, states, sources), Component(Links(c, states), n))
    ensures f in c.feeders && InService(c, states, sources, f)
    ensures Component(Links(c, states), n) == Component(Links(c, states), f.breakerId)
  {
    hide WellFormed, Validated, Links, ActiveFeeders, Injections, IsTree, Component, Nodes, InService;
    WellFormedFacts(c);
    var b :| b in Component(Links(c, states), n) * Injections(c, ActiveFeeders(c, states, sources));
    f := FeederOfInjection(c, states, sources, b);
    ComponentEqual(Links(c, states), n, b);
  }

  lemma ReachedIsComponent(c: Network, states: States, sources: Sources, f: Feeder)
    requires InService(c, states, sources, f)
    ensures Reached(c, states, sources, f) == Component(Links(c, states), f.breakerId) * SectionIds(c)
  {
    hide Links, Component, InService;
  }
}
