/** The topology calculation as it is carried out: graph building, path listing, component scan and
    load attribution, each step by step. */
module TopologyService {
  import opened Ids
  import opened Graphs
  import opened Trees
  import opened Configuration
  import opened Topology
  import opened TopologyMeaning

  datatype Calculation = Calculated(result: TopologyResult) | NotCalculated(error: TopologyError)

  // ---------------------------------------------------------------- the distribution graph

  method BuildGraph(c: Network, states: States) returns (g: Graph)
    ensures g == DistributionGraph(c, states)
  {
    var sorted := Sort(c.edges, EdgeLeq);
    g := Graph([], map[]);
    for i := 0 to |sorted|
      invariant g == GraphOf(c, states, sorted[..i])
    {
      var e := sorted[i];
      assert sorted[..i + 1][..i] == sorted[..i];
      if IsClosed(states, DeviceEnd(c, e)) && !SourceSide(c, e) {
        var pair := Link(c, e);
        if pair !in g.pairs {
          g := g.(pairs := g.pairs + [pair]);
        }
        g := g.(edgeId := g.edgeId[pair := e.id]);
      }
    }
    assert sorted[..|sorted|] == sorted;
  }

  // ---------------------------------------------------------------- source paths

  /** Paths listed per section; a section without an entry has none. */
  function Listed(paths: map<Id, seq<SourcePath>>, section: Id): seq<SourcePath> {
    if section in paths then paths[section] else []
  }

  lemma {:induction false} PathRecordsSnoc(g: Graph, f: Feeder, edge: Id, section: Id, paths: seq<seq<Id>>, k: nat)
    requires k < |paths|
    ensures PathRecords(g, f, edge, section, paths[..k + 1])
         == PathRecords(g, f, edge, section, paths[..k]) + [PathRecord(g, f, edge, section, paths[k])]
  {
    if k > 0 {
      assert paths[..k + 1][1..] == paths[1..][..k] && paths[..k][1..] == paths[1..][..k - 1];
      PathRecordsSnoc(g, f, edge, section, paths[1..], k - 1);
    }
  }

  /** The records of one feeder's paths to one section, in the order the search found them. */
  method RecordPaths(g: Graph, f: Feeder, edge: Id, section: Id, found: seq<seq<Id>>) returns (records: seq<SourcePath>)
    ensures records == PathRecords(g, f, edge, section, found)
  {
    records := [];
    for k := 0 to |found|
      invariant records == PathRecords(g, f, edge, section, found[..k])
    {
      PathRecordsSnoc(g, f, edge, section, found, k);
      records := records + [PathRecord(g, f, edge, section, found[k])];
    }
    assert found[..|found|] == found;
  }

  lemma FeederPathsAre(c: Network, g: Graph, f: Feeder, s: Id)
    requires SourceEdge(c, f).Some?
    ensures FeederPaths(c, g, f, s) ==
            if f.breakerId in Nodes(PairSet(g.pairs)) && s in Nodes(PairSet(g.pairs))
            then PathRecords(g, f, SourceEdge(c, f).value.id, s, SimplePaths(g.pairs, f.breakerId, s)) else []
  {
  }

  /** Append to each section's list the paths of one feeder. */
  method ListFeederPaths(c: Network, g: Graph, f: Feeder, edge: Id, before: map<Id, seq<SourcePath>>)
      returns (paths: map<Id, seq<SourcePath>>)
    requires Validated(c) && SourceEdge(c, f).Some? && SourceEdge(c, f).value.id == edge
    requires f.breakerId in Nodes(PairSet(g.pairs))
    ensures forall s | s in SectionIds(c) :: Listed(paths, s) == Listed(before, s) + FeederPaths(c, g, f, s)
  {
    hide Validated, SimplePaths, PathRecords, FeederPaths, Nodes, SourceEdge;
    paths := before;
    var nodes := Nodes(PairSet(g.pairs));
    for j := 0 to |c.sections|
      invariant forall k | 0 <= k < j :: Listed(paths, c.sections[k].id) == Listed(before, c.sections[k].id)
                                         + FeederPaths(c, g, f, c.sections[k].id)
      invariant forall k | j <= k < |c.sections| :: Listed(paths, c.sections[k].id) == Listed(before, c.sections[k].id)
    {
      var section := c.sections[j].id;
      forall k | 0 <= k < |c.sections| && k != j ensures c.sections[k].id != section {
        if c.sections[k].id == section { SectionsAreUnique(c, j, k); }
      }
      FeederPathsAre(c, g, f, section);
      if section in nodes {
        var records := RecordPaths(g, f, edge, section, SimplePaths(g.pairs, f.breakerId, section));
        paths := paths[section := Listed(paths, section) + records];
      }
    }
  }

  lemma AllFeederPathsSnoc(c: Network, g: Graph, active: set<Id>, feeders: seq<Feeder>, i: nat, s: Id)
    requires i < |feeders|
    ensures AllFeederPaths(c, g, active, feeders[..i + 1], s)
         == AllFeederPaths(c, g, active, feeders[..i], s)
           + (if feeders[i].id in active then FeederPaths(c, g, feeders[i], s) else [])
  {
    hide FeederPaths;
    assert feeders[..i + 1][..i] == feeders[..i];
  }

  /** All source paths, listed feeder by feeder and then sorted section by section. */
  method DeriveSourcePaths(c: Network, g: Graph, active: set<Id>) returns (paths: map<Id, seq<SourcePath>>, ok: bool)
    requires Validated(c)
    ensures ok <==> forall f | f in c.feeders && f.id in active :: SourceEdge(c, f).Some?
    ensures ok ==> forall s | s in SectionIds(c) ::
              Listed(paths, s) == Sort(AllFeederPaths(c, g, active, Sort(c.feeders, FeederLeq), s), PathLeq)
  {
    hide Validated, SourceEdge, FeederPaths, AllFeederPaths, PathLeq, FeederLeq, Nodes, SectionIds, Sort;
    var feeders := Sort(c.feeders, FeederLeq);
    SortElements(c.feeders, FeederLeq);
    paths, ok := map[], true;
    forall s ensures AllFeederPaths(c, g, active, [], s) == [] { NoFeederNoPaths(c, g, active, s); }
    for i := 0 to |feeders|
      invariant forall k | 0 <= k < i && feeders[k].id in active :: SourceEdge(c, feeders[k]).Some?
      invariant forall s | s in SectionIds(c) :: Listed(paths, s) == AllFeederPaths(c, g, active, feeders[..i], s)
    {
      var f := feeders[i];
      assert f in c.feeders;
      forall s ensures AllFeederPaths(c, g, active, feeders[..i + 1], s)
                    == AllFeederPaths(c, g, active, feeders[..i], s)
                      + (if f.id in active then FeederPaths(c, g, f, s) else []) {
        AllFeederPathsSnoc(c, g, active, feeders, i, s);
      }
      if f.id in active {
        var edge := SourceEdge(c, f);
        if edge.None? { return paths, false; }
        if f.breakerId in Nodes(PairSet(g.pairs)) {
          paths := ListFeederPaths(c, g, f, edge.value.id, paths);
        } else {
          forall s ensures FeederPaths(c, g, f, s) == [] { NoNodeNoPaths(c, g, f, s); }
        }
      }
    }
    assert feeders[..|feeders|] == feeders;
    paths := SortPaths(c, paths);
  }

  lemma NoFeederNoPaths(c: Network, g: Graph, active: set<Id>, s: Id)
    ensures AllFeederPaths(c, g, active, [], s) == []
  {
  }

  lemma NoNodeNoPaths(c: Network, g: Graph, f: Feeder, s: Id)
    requires f.breakerId !in Nodes(PairSet(g.pairs))
    ensures FeederPaths(c, g, f, s) == []
  {
  }

  method SortPaths(c: Network, before: map<Id, seq<SourcePath>>) returns (paths: map<Id, seq<SourcePath>>)
    requires Validated(c)
    ensures forall s | s in SectionIds(c) :: Listed(paths, s) == Sort(Listed(before, s), PathLeq)
  {
    hide Validated, PathLeq;
    paths := before;
    for j := 0 to |c.sections|
      invariant forall k | 0 <= k < j :: Listed(paths, c.sections[k].id)
                                         == Sort(Listed(before, c.sections[k].id), PathLeq)
      invariant forall k | j <= k < |c.sections| :: Listed(paths, c.sections[k].id) == Listed(before, c.sections[k].id)
    {
      var section := c.sections[j].id;
      forall k | 0 <= k < |c.sections| && k != j ensures c.sections[k].id != section {
        if c.sections[k].id == section { SectionsAreUnique(c, j, k); }
      }
      paths := paths[section := Sort(Listed(paths, section), PathLeq)];
    }
  }

  // ---------------------------------------------------------------- radiality

  /** Scan the connected components one at a time and collect the improper ones. */
  method DeriveRadiality(c: Network, E: Pairs, active: set<Id>) returns (status: Radiality, loops: set<set<Id>>)
    ensures loops == ImproperComponents(c, E, active) && status == RadialityOf(c, E, active)
  {
    hide Component, IsTree, Improper, Nodes;
    var seen: set<Id> := {};
    loops := {};
    while Nodes(E) - seen != {}
      invariant seen <= Nodes(E)
      invariant forall n | n in seen :: Component(E, n) * Nodes(E) <= seen
      invariant loops == set n | n in seen && Improper(c, E, active, Component(E, n)) :: Component(E, n) * SectionIds(c)
      decreases Nodes(E) - seen
    {
      var n :| n in Nodes(E) - seen;
      var component := Component(E, n);
      var injections := component * Injections(c, active);
      ComponentClosed(E, n);
      forall m | m in component * Nodes(E) ensures Component(E, m) == component { ComponentEqual(E, n, m); }
      var before := loops;
      if injections != {} && (!IsTree(E, component) || |injections| > 1) {
        loops := loops + {component * SectionIds(c)};
      }
      assert Improper(c, E, active, component) <==> injections != {}
                                                    && (!IsTree(E, component) || |injections| > 1) by
                                                      { ImproperMeans(c, E, active, component); }
      var wider := seen + component * Nodes(E);
      assert loops == set m | m in wider && Improper(c, E, active, Component(E, m)) ::
               Component(E, m) * SectionIds(c) by {
        ScanStep(c, E, active, seen, n, before);
      }
      seen := wider;
    }
    forall n | n in Nodes(E) ensures n in seen { assert n !in Nodes(E) - seen; }
    assert seen == Nodes(E);
    status := if loops == {} then Radial else UnintendedLoop;
  }

  lemma ImproperMeans(c: Network, E: Pairs, active: set<Id>, K: set<Id>)
    ensures Improper(c, E, active, K) <==> K * Injections(c, active) != {}
                                           && (!IsTree(E, K) || |K * Injections(c, active)| > 1)
  {
  }

  /** One more component scanned. */
  lemma ScanStep(c: Network, E: Pairs, active: set<Id>, seen: set<Id>, n: Id, loops: set<set<Id>>)
    requires n in Nodes(E)
    requires loops == set m | m in seen && Improper(c, E, active, Component(E, m)) :: Component(E, m) * SectionIds(c)
    ensures (if Improper(c, E, active, Component(E, n)) then loops + {Component(E, n) * SectionIds(c)} else loops)
         == set m | m in seen + Component(E, n) * Nodes(E) && Improper(c, E, active, Component(E, m)) ::
             Component(E, m) * SectionIds(c)
  {
    hide Component, IsTree, Improper, Nodes, SectionIds;
    var K := Component(E, n);
    ComponentClosed(E, n);
    forall m | m in K * Nodes(E) ensures Component(E, m) == K { ComponentEqual(E, n, m); }
    assert n in K * Nodes(E);
  }

  // ---------------------------------------------------------------- loads

  method DeriveFeederLoads(c: Network, sections: map<Id, SectionState>) returns (loads: map<Id, FeederLoad>)
    ensures loads == map f | f in FeederIds(c) :: FeederLoadOf(c, sections, f)
  {
    hide FeederLoadOf;
    loads := map[];
    for i := 0 to |c.feeders|
      invariant loads.Keys == set k | 0 <= k < i :: c.feeders[k].id
      invariant forall f | f in loads :: loads[f] == FeederLoadOf(c, sections, f)
    {
      loads := loads[c.feeders[i].id := FeederLoadOf(c, sections, c.feeders[i].id)];
    }
  }

  // ---------------------------------------------------------------- the calculation

  /** The whole calculation fails exactly on incomplete inputs, or when a feeder in service has no
      edge to its own source; otherwise it gives the specified result. */
  method Calculate(c: Network, i: Inputs) returns (r: Calculation)
    requires Validated(c)
    ensures !Complete(c, i) ==> r == NotCalculated(InvalidInputs)
    ensures Complete(c, i) && !SourceEdgesPresent(c, i) ==> r == NotCalculated(NoSourceEdge)
    ensures Complete(c, i) && SourceEdgesPresent(c, i) ==> r == Calculated(TopologyOf(c, i))
    ensures r == NotCalculated(InvalidInputs) <==> !Fits(c, i)
    ensures r == NotCalculated(NoSourceEdge) <==> Fits(c, i) && exists f :: Unmet(c, i, f)
  {
    FitsIffComplete(c, i);
    UnmetMeans(c, i);
    hide Fits, Unmet, Validated, SourceEdge, Complete, FeederLoadOf, ImproperComponents, DistributionGraph, ProofOf;
    hide AllFeederPaths;
    if !Complete(c, i) { return NotCalculated(InvalidInputs); }
    var g := BuildGraph(c, i.states);
    var active := ActiveFeeders(c, i.states, i.sources);
    var paths, ok := DeriveSourcePaths(c, g, active);
    ActiveAreInService(c, i);
    if !ok { return NotCalculated(NoSourceEdge); }
    var sections := map s | s in SectionIds(c) ::
      SectionState(Listed(paths, s) != [], s in i.faulted, FeedersOfPaths(Listed(paths, s)), Listed(paths, s));
    assert sections == SectionStates(c, i);
    var radiality, loops := DeriveRadiality(c, PairSet(g.pairs), active);
    var loads := DeriveFeederLoads(c, sections);
    r := Calculated(TopologyResult(
      EdgeIds(c), set e | e in c.edges && IsClosed(i.states, DeviceEnd(c, e)) :: e.id,
      AvailableSources(c, i.sources), AvailableFeeders(c, i.sources), active, radiality, loops, sections, loads,
      match i.activeFault case None => None case Some(f) => Some(ProofOf(c, i, f))));
  }

  lemma ActiveAreInService(c: Network, i: Inputs)
    requires Validated(c)
    ensures SourceEdgesPresent(c, i) <==> forall f | f in c.feeders
                                          && f.id in ActiveFeeders(c, i.states, i.sources) :: SourceEdge(c, f).Some?
  {
    hide Validated, SourceEdge;
    forall f | f in c.feeders ensures f.id in ActiveFeeders(c, i.states, i.sources)
      <==> InService(c, i.states, i.sources, f) {
      if f.id in ActiveFeeders(c, i.states, i.sources) {
        var h :| h in c.feeders && InService(c, i.states, i.sources, h) && h.id == f.id;
        FeedersAreUnique(c, f, h);
      }
    }
  }
}
