/** Each field of the topology result in terms of reachability, and conservation of load. */
module TopologyFacts {
  import opened Ids
  import opened Graphs
  import opened Configuration
  import opened Topology
  import opened Energisation

  predicate RadialNetwork(c: Network, states: States, sources: Sources) {
    RadialityOf(c, Links(c, states), ActiveFeeders(c, states, sources)) == Radial
  }

  lemma SectionsMean(c: Network, i: Inputs)
    requires WellFormed(c)
    ensures TopologyOf(c, i).sections.Keys == SectionIds(c)
    ensures forall s | s in SectionIds(c) ::
              && TopologyOf(c, i).sections[s].feeders == Supply(c, i.states, i.sources, s)
              && TopologyOf(c, i).sections[s].paths == SectionPaths(c, i.states, i.sources, s)
              && (TopologyOf(c, i).sections[s].energised <==> s in Live(c, i.states, i.sources))
              && (TopologyOf(c, i).sections[s].faulted <==> s in i.faulted)
  {
    hide WellFormed, Supply, Live, SectionPaths, FeedersOfPaths, RadialityOf, ProofOf, FeederLoadOf, ImproperComponents;
    hide DistributionGraph, ActiveFeeders, AvailableFeeders;
    forall s | s in SectionIds(c)
      ensures SectionStateOf(c, i, s).feeders == Supply(c, i.states, i.sources, s)
      ensures SectionStateOf(c, i, s).energised <==> s in Live(c, i.states, i.sources)
    {
      EnergisedIffReachable(c, i.states, i.sources, s);
    }
  }

  lemma RadialityMeans(c: Network, i: Inputs)
    requires WellFormed(c)
    ensures TopologyOf(c, i).radiality == Radial <==> RadialNetwork(c, i.states, i.sources)
  {
    hide WellFormed, Validated, SectionStates, RadialityOf, ProofOf, FeederLoadOf, ImproperComponents;
    hide DistributionGraph, ActiveFeeders, AvailableFeeders, Links;
    WellFormedFacts(c);
    GraphIsLinks(c, i.states);
  }

  /** The boundary devices of the fault section as a set. */
  function BoundarySet(c: Network, fault: Id): set<Id> {
    set e | e in c.edges && fault in {e.a, e.b} :: DeviceEnd(c, e)
  }

  lemma {:induction false} BoundaryListMembers(c: Network, edges: seq<Edge>, fault: Id)
    ensures forall d :: d in BoundaryList(c, edges, fault) <==> exists e ::
              e in edges && fault in {e.a, e.b} && DeviceEnd(c, e) == d
  {
    if edges != [] {
      var n := |edges| - 1;
      BoundaryListMembers(c, edges[..n], fault);
      assert forall e :: e in edges <==> e in edges[..n] || e == edges[n];
    }
  }

  lemma BoundaryMembers(c: Network, fault: Id)
    ensures forall d :: d in Boundaries(c, fault) <==> d in BoundarySet(c, fault)
    ensures Boundaries(c, fault) == [] <==> BoundarySet(c, fault) == {}
  {
    BoundaryListMembers(c, c.edges, fault);
    SortElements(BoundaryList(c, c.edges, fault), IdLeq);
    if Boundaries(c, fault) != [] { assert Boundaries(c, fault)[0] in Boundaries(c, fault); }
  }

  /** Every boundary device is observed OPEN with good, fresh evidence, and there is at least one. */
  predicate AllProvenOpen(c: Network, fault: Id, observations: map<Id, Observation>) {
    BoundarySet(c, fault) != {} && forall d | d in BoundarySet(c, fault) ::
        StatusOf(ObservationOf(observations, d)) == ProvenOpen
  }

  lemma ProofMeans(c: Network, i: Inputs, fault: Id)
    requires WellFormed(c) && fault in SectionIds(c)
    ensures var proof := ProofOf(c, i, fault);
            && proof.boundaries == Boundaries(c, fault)
            && proof.evaluations == Evaluations(Boundaries(c, fault), i.observations)
            && (proof.allOpen <==> AllProvenOpen(c, fault, i.observations))
            && (proof.zeroPaths <==> fault !in Live(c, i.states, i.sources))
            && (proof.isolated <==> AllProvenOpen(c, fault, i.observations) && fault !in Live(c, i.states, i.sources))
  {
    hide WellFormed, Live, SectionPaths, AvailableFeeders, Boundaries, BoundarySet, StatusOf, ObservationOf;
    EnergisedIffReachable(c, i.states, i.sources, fault);
    BoundaryMembers(c, fault);
    var B := Boundaries(c, fault);
    var evs := Evaluations(B, i.observations);
    assert forall k | 0 <= k < |B| :: evs[k] == Evaluate(B[k], ObservationOf(i.observations, B[k]));
    if forall e | e in evs :: e.status == ProvenOpen {
      forall d | d in BoundarySet(c, fault) ensures StatusOf(ObservationOf(i.observations, d)) == ProvenOpen {
        var k :| 0 <= k < |B| && B[k] == d;
        assert evs[k] in evs;
      }
    }
  }

  /** All boundary devices are open switches. */
  predicate BoundariesOpen(c: Network, fault: Id, states: States) {
    forall d | d in BoundarySet(c, fault) :: !IsClosed(states, d)
  }

  /** With every boundary open nothing reaches the fault section, whoever feeds the network. */
  lemma OpenBoundariesIsolate(c: Network, fault: Id, states: States, sources: Sources)
    requires WellFormed(c) && fault in SectionIds(c) && BoundariesOpen(c, fault, states)
    ensures fault !in Live(c, states, sources)
  {
    hide WellFormed, Validated;
    WellFormedFacts(c);
    IdsAreDisjoint(c);
    BreakersAreDevices(c);
    var E := Links(c, states);
    FaultHasNoLink(c, fault, states);
    forall f | f in c.feeders ensures !Feeds(c, states, sources, f, fault) {
      ComponentClosed(E, f.breakerId);
      var T := Component(E, f.breakerId) - {fault};
      assert f.breakerId in BreakerIds(c);
      assert f.breakerId in T;
      ComponentLeast(E, f.breakerId, T);
    }
  }

  lemma FaultHasNoLink(c: Network, fault: Id, states: States)
    requires WellFormed(c) && fault in SectionIds(c) && BoundariesOpen(c, fault, states)
    ensures forall u :: !Adj(Links(c, states), u, fault)
  {
    hide WellFormed, Validated;
    WellFormedFacts(c);
    IdsAreDisjoint(c);
    LinkTerminalsAreSections(c, states);
    forall e | e in c.edges && Conducts(c, states, e) ensures TerminalEnd(c, e) != fault {
      EdgeEnds(c, e);
      assert fault in {e.a, e.b} ==> DeviceEnd(c, e) in BoundarySet(c, fault);
    }
    assert forall x | x in Links(c, states) :: x.1 != fault && x.0 != fault;
  }

  // ---------------------------------------------------------------- load conservation

  lemma {:induction false} LoadOfUnion(sections: seq<Section>, A: set<Id>, B: set<Id>)
    requires A !! B
    ensures LoadOf(sections, A + B) == LoadOf(sections, A) + LoadOf(sections, B)
  {
    if sections != [] { LoadOfUnion(sections[..|sections|-1], A, B); }
  }

  lemma {:induction false} LoadOfNothing(sections: seq<Section>)
    ensures LoadOf(sections, {}) == 0
  {
    if sections != [] { LoadOfNothing(sections[..|sections|-1]); }
  }

  /** The sections supplied by exactly this feeder. */
  function SuppliedBy(c: Network, states: States, sources: Sources, f: Id): set<Id> {
    set s | s in SectionIds(c) && Supply(c, states, sources, s) == {f}
  }

  function MultiplySupplied(c: Network, states: States, sources: Sources): set<Id> {
    set s | s in SectionIds(c) && |Supply(c, states, sources, s)| > 1
  }

  lemma LoadsShape(c: Network, i: Inputs)
    ensures TopologyOf(c, i).loads.Keys == FeederIds(c)
    ensures forall f | f in FeederIds(c) :: TopologyOf(c, i).loads[f] == FeederLoadOf(c, TopologyOf(c, i).sections, f)
  {
    hide SectionStates, FeederLoadOf, RadialityOf, ImproperComponents, ProofOf, DistributionGraph, ActiveFeeders;
    hide AvailableFeeders;
  }

  lemma LoadsMean(c: Network, i: Inputs)
    requires WellFormed(c)
    ensures TopologyOf(c, i).loads.Keys == FeederIds(c)
    ensures forall f | f in FeederIds(c) ::
              var l := TopologyOf(c, i).loads[f];
              && l.supplied == SuppliedBy(c, i.states, i.sources, f)
              && (l.complete <==> forall s | s in MultiplySupplied(c, i.states, i.sources) ::
                    f !in Supply(c, i.states, i.sources, s))
              && l.loadKw == (if l.complete then Some(LoadOf(c.sections, SuppliedBy(c, i.states, i.sources, f)))
                                                 else None)
              && l.normalKw == FeederById(c, f).value.normalLoadKw
  {
    hide WellFormed, Supply, TopologyOf, LoadOf, Live, SectionPaths, SectionIds, FeederIds;
    SectionsMean(c, i);
    LoadsShape(c, i);
    var t := TopologyOf(c, i);
    forall f | f in FeederIds(c)
      ensures t.loads[f].supplied == SuppliedBy(c, i.states, i.sources, f)
      ensures t.loads[f].complete <==> forall s | s in MultiplySupplied(c, i.states, i.sources) ::
                f !in Supply(c, i.states, i.sources, s)
    {
      var l := FeederLoadOf(c, t.sections, f);
      assert l.supplied == SuppliedBy(c, i.states, i.sources, f);
      assert l.multiply == set s | s in MultiplySupplied(c, i.states, i.sources)
             && f in Supply(c, i.states, i.sources, s);
      if l.multiply != {} { var s :| s in l.multiply; }
      forall s | s in MultiplySupplied(c, i.states, i.sources) && f in Supply(c, i.states, i.sources, s)
        ensures l.multiply != {} {
        assert s in l.multiply;
      }
    }
  }

  function SumLoads(feeders: seq<Feeder>, loads: map<Id, FeederLoad>): nat {
    if feeders == [] then 0
    else
      var f := feeders[|feeders|-1];
      SumLoads(feeders[..|feeders|-1], loads)
      + (if f.id in loads && loads[f.id].loadKw.Some? then loads[f.id].loadKw.value else 0)
  }

  ghost function SuppliedByAny(c: Network, states: States, sources: Sources, feeders: seq<Feeder>): set<Id> {
    set s, f | f in feeders && s in SuppliedBy(c, states, sources, f.id) :: s
  }

  lemma SuppliedGrows(c: Network, states: States, sources: Sources, feeders: seq<Feeder>)
    requires Validated(c) && feeders <= c.feeders && feeders != []
    ensures var rest, f := feeders[..|feeders|-1], feeders[|feeders|-1];
            var A, B := SuppliedByAny(c, states, sources, rest), SuppliedBy(c, states, sources, f.id);
            A !! B && SuppliedByAny(c, states, sources, feeders) == A + B
  {
    hide Validated, Supply, SectionIds;
    var n := |feeders| - 1;
    var rest, f := feeders[..n], feeders[n];
    assert feeders == rest + [f];
    var A, B := SuppliedByAny(c, states, sources, rest), SuppliedBy(c, states, sources, f.id);
    forall s | s in A ensures s !in B {
      var h :| h in rest && s in SuppliedBy(c, states, sources, h.id);
      var k :| 0 <= k < n && rest[k] == h;
      assert c.feeders[k] == h && c.feeders[n] == f;
      if h.id == f.id { FeederAtIsUnique(c, k, n); }
      assert Supply(c, states, sources, s) == {h.id};
      assert h.id in {h.id} && h.id !in {f.id};
    }
  }

  lemma {:induction false} SumOfSupplied(c: Network, i: Inputs, feeders: seq<Feeder>)
    requires WellFormed(c) && feeders <= c.feeders
    requires forall f | f in FeederIds(c) ::
               f in TopologyOf(c, i).loads
               && TopologyOf(c, i).loads[f].loadKw == Some(LoadOf(c.sections, SuppliedBy(c, i.states, i.sources, f)))
    ensures SumLoads(feeders, TopologyOf(c, i).loads)
            == LoadOf(c.sections, SuppliedByAny(c, i.states, i.sources, feeders))
  {
    hide WellFormed, Validated, TopologyOf, LoadOf, SuppliedBy;
    WellFormedFacts(c);
    var n := |feeders| - 1;
    if n < 0 {
      LoadOfNothing(c.sections);
      assert SuppliedByAny(c, i.states, i.sources, feeders) == {};
    } else {
      hide SuppliedByAny;
      var rest, f := feeders[..n], feeders[n];
      SumOfSupplied(c, i, rest);
      SuppliedGrows(c, i.states, i.sources, feeders);
      assert c.feeders[n] == f && f.id in FeederIds(c);
      LoadOfUnion(c.sections, SuppliedByAny(c, i.states, i.sources, rest), SuppliedBy(c, i.states, i.sources, f.id));
    }
  }

  lemma RadialSupplyIsSingle(c: Network, states: States, sources: Sources, s: Id, f: Id, h: Id)
    requires WellFormed(c) && s in SectionIds(c) && RadialNetwork(c, states, sources)
    requires f in Supply(c, states, sources, s) && h in Supply(c, states, sources, s)
    ensures f == h
  {
    hide WellFormed, RadialityOf, Feeds;
    var x :| x in c.feeders && Feeds(c, states, sources, x, s) && x.id == f;
    var y :| y in c.feeders && Feeds(c, states, sources, y, s) && y.id == h;
    RadialComponent(c, states, sources, x, y, s);
  }

  lemma RadialNeverMultiple(c: Network, states: States, sources: Sources)
    requires WellFormed(c) && RadialNetwork(c, states, sources)
    ensures MultiplySupplied(c, states, sources) == {}
  {
    hide WellFormed, RadialityOf, Supply;
    forall s | s in SectionIds(c) ensures |Supply(c, states, sources, s)| <= 1 {
      var S := Supply(c, states, sources, s);
      if S != {} {
        var f :| f in S;
        forall h | h in S ensures h == f { RadialSupplyIsSingle(c, states, sources, s, f, h); }
        assert S == {f};
      }
    }
  }

  /** When the network is RADIAL every attribution is complete, and the feeders' supplied loads
      together with the load of the de-energised sections are the whole configured section load. */
  lemma LoadConserved(c: Network, i: Inputs)
    requires WellFormed(c) && TopologyOf(c, i).radiality == Radial
    ensures forall f | f in FeederIds(c) :: f in TopologyOf(c, i).loads && TopologyOf(c, i).loads[f].complete
    ensures SumLoads(c.feeders, TopologyOf(c, i).loads)
          + LoadOf(c.sections, SectionIds(c) - Live(c, i.states, i.sources))
         == LoadOf(c.sections, SectionIds(c))
  {
    hide WellFormed, TopologyOf, RadialNetwork, LoadOf, SumLoads;
    RadialityMeans(c, i);
    RadialNeverMultiple(c, i.states, i.sources);
    LoadsMean(c, i);
    SumOfSupplied(c, i, c.feeders);
    var L := Live(c, i.states, i.sources);
    SuppliedIsLive(c, i.states, i.sources);
    LoadOfUnion(c.sections, L, SectionIds(c) - L);
    assert L + (SectionIds(c) - L) == SectionIds(c);
  }

  lemma SuppliedIsLive(c: Network, states: States, sources: Sources)
    requires MultiplySupplied(c, states, sources) == {}
    ensures SuppliedByAny(c, states, sources, c.feeders) == Live(c, states, sources)
  {
    hide Feeds;
    forall s | s in Live(c, states, sources) ensures s in SuppliedByAny(c, states, sources, c.feeders) {
      var S := Supply(c, states, sources, s);
      var id :| id in S;
      var f :| f in c.feeders && f.id == id;
      assert s !in MultiplySupplied(c, states, sources);
      if S != {id} {
        var h :| h in S && h != id;
        SmallSet(S, id, h);
      }
      assert s in SuppliedBy(c, states, sources, f.id);
    }
  }
}
