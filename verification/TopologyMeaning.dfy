/** What a topology calculation demands of its inputs, and the lists of its result, in configured terms. */
module TopologyMeaning {
  import opened Ids
  import opened Configuration
  import opened ValidationMeaning
  import opened Topology
  import opened Energisation

  // ---------------------------------------------------------------- the inputs

  /** The inputs give a state for every device and an availability for every source, name nothing that is not
      configured, and count the active fault among the faulted sections. */
  ghost predicate Fits(c: Network, i: Inputs) {
    && (forall d :: d in i.states <==> IsDevice(c, d))
    && (forall s :: s in i.sources <==> IsSource(c, s))
    && (forall s | s in i.faulted :: IsSection(c, s))
    && (forall d | d in i.observations :: IsDevice(c, d))
    && (forall f | i.activeFault == Some(f) :: f in i.faulted)
  }

  lemma FitsIffComplete(c: Network, i: Inputs)
    ensures Complete(c, i) <==> Fits(c, i)
  {
    assert forall id :: id in DeviceIds(c) <==> IsDevice(c, id);
    assert forall id :: id in SourceIds(c) <==> IsSource(c, id);
    assert forall id :: id in SectionIds(c) <==> IsSection(c, id);
    if Fits(c, i) {
      assert i.states.Keys == DeviceIds(c) && i.sources.Keys == SourceIds(c);
    }
  }

  /** A feeder that is in service has no edge between its breaker and its source. */
  ghost predicate Unmet(c: Network, i: Inputs, f: Feeder) {
    && f in c.feeders && f.sourceId in i.sources && i.sources[f.sourceId] == SourceAvailability.Available
    && f.breakerId in i.states && i.states[f.breakerId] == Closed
    && forall e | e in c.edges :: {e.a, e.b} != {f.sourceId, f.breakerId}
  }

  lemma SourceEdgeMeans(c: Network, f: Feeder)
    requires Validated(c) && f in c.feeders
    ensures SourceEdge(c, f).Some? <==> exists e :: e in c.edges && {e.a, e.b} == {f.sourceId, f.breakerId}
  {
    assert Satisfies(c, ConsistentFeeders);
    assert FeederConsistent(c, f);
    IdsAreDisjoint(c);
    BreakersAreDevices(c);
    hide Validated, SourceEdge;
    assert f.breakerId in BreakerIds(c) && f.sourceId in SourceIds(c) && f.breakerId != f.sourceId;
    forall e | e in c.edges && {e.a, e.b} == {f.sourceId, f.breakerId} ensures SourceSide(c, e) {
      assert f.sourceId in {e.a, e.b} * SourceIds(c) && f.breakerId in {e.a, e.b} * BreakerIds(c);
    }
    if SourceEdge(c, f).Some? {
      var e := SourceEdge(c, f).value;
      assert {e.a, e.b} == {f.sourceId, f.breakerId};
    }
  }

  lemma UnmetMeans(c: Network, i: Inputs)
    requires Validated(c)
    ensures SourceEdgesPresent(c, i) <==> forall f :: !Unmet(c, i, f)
  {
    hide Validated, SourceEdge;
    forall f | f in c.feeders
      ensures SourceEdge(c, f).Some? <==> exists e :: e in c.edges && {e.a, e.b} == {f.sourceId, f.breakerId}
    {
      SourceEdgeMeans(c, f);
    }
    forall f ensures Unmet(c, i, f) <==> f in c.feeders && InService(c, i.states, i.sources, f)
                                         && SourceEdge(c, f).None? {
    }
  }

  // ---------------------------------------------------------------- the lists of the result

  /** Which edges, sources and feeders the result lists as configured, active and available. */
  lemma ListsMean(c: Network, i: Inputs, id: Id)
    requires Validated(c)
    ensures var t := TopologyOf(c, i);
            && (id in t.configuredEdges <==> exists e :: e in c.edges && e.id == id)
            && (id in t.activeEdges <==> exists e, d :: e in c.edges && e.id == id && d in {e.a, e.b} && IsDevice(c, d)
                                                        && d in i.states && i.states[d] == Closed)
            && (id in t.availableSources <==>
                  IsSource(c, id) && id in i.sources && i.sources[id] == SourceAvailability.Available)
            && (id in t.availableFeeders <==> exists f :: f in c.feeders && f.id == id && f.sourceId in i.sources
                                                          && i.sources[f.sourceId] == SourceAvailability.Available)
            && (id in t.activeFeeders <==>
                  exists f :: f in c.feeders && f.id == id && f.sourceId in i.sources
                              && i.sources[f.sourceId] == SourceAvailability.Available
                              && f.breakerId in i.states && i.states[f.breakerId] == Closed)
  {
    hide Validated, SectionStates, RadialityOf, ImproperComponents, DistributionGraph, FeederLoadOf, ProofOf;
    forall e | e in c.edges
      ensures IsClosed(i.states, DeviceEnd(c, e)) <==>
              exists d :: d in {e.a, e.b} && IsDevice(c, d) && d in i.states && i.states[d] == Closed
    {
      EdgeEnds(c, e);
      assert forall d :: IsDevice(c, d) <==> d in DeviceIds(c);
    }
  }

  /** Source paths are listed by feeder, the shorter first within a feeder, and by their edges within a length. */
  lemma PathsAscend(c: Network, states: States, sources: Sources, s: Id, i: nat, j: nat)
    requires WellFormed(c) && s in SectionIds(c) && i < j < |SectionPaths(c, states, sources, s)|
    ensures var p, q := SectionPaths(c, states, sources, s)[i], SectionPaths(c, states, sources, s)[j];
            && p != q && IdLeq(p.feederId, q.feederId)
            && (p.feederId == q.feederId ==> |p.edges| <= |q.edges|)
            && (p.feederId == q.feederId && |p.edges| == |q.edges| ==> IdsLeq(p.edges, q.edges))
  {
    hide WellFormed, SectionPaths, IdLeq, IdsLeq;
    SourcePathsExact(c, states, sources, s);
    IdOrder();
    var paths := SectionPaths(c, states, sources, s);
    assert PathLeq(paths[i], paths[j]);
  }

  /** The number of edges between the fault section and the device. */
  function Meetings(c: Network, edges: seq<Edge>, fault: Id, d: Id): nat {
    if edges == [] then 0
    else (if fault in {edges[0].a, edges[0].b} && DeviceEnd(c, edges[0]) == d then 1 else 0)
         + Meetings(c, edges[1..], fault, d)
  }

  lemma {:induction false} MeetingsSnoc(c: Network, edges: seq<Edge>, e: Edge, fault: Id, d: Id)
    ensures Meetings(c, edges + [e], fault, d) == Meetings(c, edges, fault, d) + Meetings(c, [e], fault, d)
  {
    if edges == [] {
      assert edges + [e] == [e];
    } else {
      MeetingsSnoc(c, edges[1..], e, fault, d);
      assert (edges + [e])[1..] == edges[1..] + [e];
    }
  }

  lemma {:induction false} BoundaryListCounts(c: Network, edges: seq<Edge>, fault: Id, d: Id)
    ensures multiset(BoundaryList(c, edges, fault))[d] == Meetings(c, edges, fault, d)
  {
    if edges != [] {
      var n := |edges| - 1;
      BoundaryListCounts(c, edges[..n], fault, d);
      MeetingsSnoc(c, edges[..n], edges[n], fault, d);
      assert edges == edges[..n] + [edges[n]];
    }
  }

  /** The boundary lists a device once for each of its edges to the fault section, in identifier order, and
      evaluates each entry on the device's own observation. */
  lemma BoundariesMean(c: Network, i: Inputs, fault: Id)
    ensures var proof := ProofOf(c, i, fault);
            && proof.fault == fault && SortedBy(proof.boundaries, IdLeq)
            && (forall d :: multiset(proof.boundaries)[d] == Meetings(c, c.edges, fault, d))
            && |proof.evaluations| == |proof.boundaries|
            && (forall k | 0 <= k < |proof.boundaries| ::
                  && proof.evaluations[k].device == proof.boundaries[k]
                  && proof.evaluations[k].observation
                     == (if proof.boundaries[k] in i.observations
                         then Some(i.observations[proof.boundaries[k]]) else None))
            && proof.feeders == AvailableFeeders(c, i.sources)
               && proof.paths == SectionPaths(c, i.states, i.sources, fault)
  {
    hide SectionPaths, AvailableFeeders, StatusOf, IdLeq;
    var list := BoundaryList(c, c.edges, fault);
    SortElements(list, IdLeq);
    IdOrder();
    SortSorted(list, IdLeq);
    forall d ensures multiset(list)[d] == Meetings(c, c.edges, fault, d) { BoundaryListCounts(c, c.edges, fault, d); }
  }
}
