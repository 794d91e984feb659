/** What closing the tie of a PERMITTED assessment does to supply, load and customers, and how an
    assessment depends on the time at which it is made. */
module ExecutionFacts {
  import opened Ids
  import opened Graphs
  import opened Configuration
  import opened Topology
  import opened Telemetry
  import opened Outage
  import opened Restoration
  import opened Energisation
  import opened TopologyFacts
  import opened Derivation
  import opened RestorationFacts

  // ---------------------------------------------------------------- supply after the tie is closed

  lemma ServiceUnchanged(c: Network, states: States, sources: Sources, d: Id, g: Feeder)
    requires g in c.feeders && d !in BreakerIds(c)
    ensures InService(c, CloseAt(states, d), sources, g) <==> InService(c, states, sources, g)
  {
    BreakerOf(c, g);
  }

  /** Only the alternate feeder can reach anything new. */
  lemma NewlyFedByAlternate(l: Loaded, a: AssessmentInputs, k: Candidate, f: Feeder, g: Feeder, s: Id)
    requires WellFormed(l.data) && Grounded(l.data, a) && PermittedMeans(l, a, k, f)
    requires g in l.data.feeders && s in SectionIds(l.data)
    requires Feeds(l.data, After(a, k), a.sources, g, s) && !Feeds(l.data, StatesOf(a.points), a.sources, g, s)
    ensures g == f
  {
    hide WellFormed, Validated, CandidateOf, Links, Component, RadialityOf, ProvenOpenAt, BoundarySet, DeviceIds;
    hide SectionIds, BreakerIds, Live, TopologyAt, InService, ActiveFeeders;
    var c := l.data;
    WellFormedFacts(c);
    var states, E' := StatesOf(a.points), Links(c, After(a, k));
    ServiceUnchanged(c, states, a.sources, k.tie, g);
    ServiceUnchanged(c, states, a.sources, k.tie, f);
    NewReachUsesDevice(c, states, k.tie, g.breakerId, s);
    var s0 :| s0 in k.sections;
    NotLiveNotFed(c, states, a.sources, f, s0);
    assert Feeds(c, After(a, k), a.sources, f, s0);
    NewReachUsesDevice(c, states, k.tie, f.breakerId, s0);
    ComponentEqual(E', g.breakerId, k.tie);
    ComponentEqual(E', f.breakerId, k.tie);
    RadialComponent(c, After(a, k), a.sources, f, g, s);
  }

  lemma SupplyHas(c: Network, states: States, sources: Sources, s: Id, id: Id) returns (g: Feeder)
    requires id in Supply(c, states, sources, s)
    ensures g in c.feeders && g.id == id && Feeds(c, states, sources, g, s)
  {
    g :| g in c.feeders && Feeds(c, states, sources, g, s) && g.id == id;
  }

  /** Sections that were energised keep exactly their feeders; the others gain at most the alternate. */
  lemma SupplyAfterClose(l: Loaded, a: AssessmentInputs, k: Candidate, f: Feeder, s: Id)
    requires WellFormed(l.data) && Grounded(l.data, a) && PermittedMeans(l, a, k, f) && s in SectionIds(l.data)
    ensures s in LiveNow(l.data, a.points, a.sources) ==>
              Supply(l.data, After(a, k), a.sources, s) == Supply(l.data, StatesOf(a.points), a.sources, s)
    ensures s !in LiveNow(l.data, a.points, a.sources) ==> Supply(l.data, After(a, k), a.sources, s) <= {f.id}
  {
    hide WellFormed, CandidateOf, RadialNetwork, ProvenOpenAt, BoundarySet, DeviceIds, BreakerIds, TopologyAt, Feeds;
    hide Supply;
    var c := l.data;
    var states := StatesOf(a.points);
    var S0, S1 := Supply(c, states, a.sources, s), Supply(c, After(a, k), a.sources, s);
    assert ClosesMore(states, After(a, k));
    SupplyMonotone(c, states, After(a, k), a.sources, s);
    if s in LiveNow(c, a.points, a.sources) {
      var h :| h in S0;
      forall g | g in S1 ensures g in S0 { RadialSupplyIsSingle(c, After(a, k), a.sources, s, g, h); }
    } else {
      forall id | id in S1 ensures id == f.id {
        var g := SupplyHas(c, After(a, k), a.sources, s, id);
        NotLiveNotFed(c, states, a.sources, g, s);
        NewlyFedByAlternate(l, a, k, f, g, s);
      }
    }
  }

  /** Sections energised by closing the tie. */
  function Newly(c: Network, a: AssessmentInputs, k: Candidate): set<Id> {
    Live(c, After(a, k), a.sources) - LiveNow(c, a.points, a.sources)
  }

  /** Newly energised sections that do not belong to the faulted feeder. */
  function Stray(c: Network, a: AssessmentInputs, k: Candidate): set<Id> {
    set s | s in c.sections && s.feederId != k.affectedFeeder && s.id in Newly(c, a, k) :: s.id
  }

  lemma SuppliedAfterClose(l: Loaded, a: AssessmentInputs, k: Candidate, f: Feeder)
    requires WellFormed(l.data) && Grounded(l.data, a) && PermittedMeans(l, a, k, f)
    ensures forall g | g != f.id :: SuppliedBy(l.data, After(a, k), a.sources, g)
                                    == SuppliedBy(l.data, StatesOf(a.points), a.sources, g)
    ensures SuppliedBy(l.data, After(a, k), a.sources, f.id)
         == SuppliedBy(l.data, StatesOf(a.points), a.sources, f.id) + Newly(l.data, a, k)
    ensures SuppliedBy(l.data, StatesOf(a.points), a.sources, f.id) !! Newly(l.data, a, k)
    ensures forall s | s in k.sections :: Supply(l.data, After(a, k), a.sources, s) == {f.id}
    ensures k.sections <= Newly(l.data, a, k)
  {
    hide WellFormed, CandidateOf, RadialNetwork, ProvenOpenAt, BoundarySet, DeviceIds, BreakerIds, TopologyAt, Feeds;
    hide Supply;
    var c, states := l.data, StatesOf(a.points);
    forall s | s in SectionIds(c)
      ensures s in LiveNow(c, a.points, a.sources)
              ==> Supply(c, After(a, k), a.sources, s) == Supply(c, states, a.sources, s)
      ensures s !in LiveNow(c, a.points, a.sources) ==> Supply(c, After(a, k), a.sources, s) <= {f.id}
    {
      SupplyAfterClose(l, a, k, f, s);
    }
    forall s | s in k.sections ensures f.id in Supply(c, After(a, k), a.sources, s) {
      assert Feeds(c, After(a, k), a.sources, f, s);
      FedIsSupply(c, After(a, k), a.sources, f, s);
    }
  }

  lemma FedIsSupply(c: Network, states: States, sources: Sources, f: Feeder, s: Id)
    requires f in c.feeders && Feeds(c, states, sources, f, s)
    ensures f.id in Supply(c, states, sources, s)
  {
  }

  lemma StructuralIsProposed(l: Loaded, a: AssessmentInputs, k: Candidate, f: Feeder)
    requires PermittedMeans(l, a, k, f)
    ensures StructuralInputs(a, k.tie, f) == ProposedInputs(a, k)
  {
    hide CandidateOf, RadialNetwork, ProvenOpenAt, Feeds, LiveNow;
    var S := After(a, k);
    assert S[f.breakerId := Closed] == S;
    assert a.sources[f.sourceId := SourceAvailability.Available] == a.sources;
  }

  /** The candidate names every newly energised section of the faulted feeder. */
  lemma FaultedFeederIsPickedUp(l: Loaded, a: AssessmentInputs, k: Candidate, f: Feeder, fault: Section, tie: Device,
      s: Section)
    requires WellFormed(l.data) && Grounded(l.data, a) && PermittedMeans(l, a, k, f)
             && CandidateShape(l, a, k, fault, tie, f)
    requires a.fault !in Live(l.data, After(a, k), a.sources)
    requires s in l.data.sections && s.id in Newly(l.data, a, k) && s.feederId == fault.feederId
    ensures s.id in k.sections
  {
    hide WellFormed, CandidateOf, RadialNetwork, ProvenOpenAt, BoundarySet, DeviceIds, BreakerIds, Feeds, TopologyOf;
    hide StructuralInputs, ProposedInputs, Supply, Live, SuppliedBy;
    GroundedParts(l.data, a);
    var c := l.data;
    StructuralIsProposed(l, a, k, f);
    SuppliedAfterClose(l, a, k, f);
    SectionsMean(c, InputsAt(a.points, a.sources, Some(a.fault), a.time));
    SuppliedOnlyBy(c, After(a, k), a.sources, f.id, s.id);
    FedInProposed(c, a, k, f, s.id);
    assert !EnergisedIn(a.topology, s.id);
  }

  lemma SuppliedOnlyBy(c: Network, states: States, sources: Sources, f: Id, s: Id)
    requires s in SuppliedBy(c, states, sources, f)
    ensures s in SectionIds(c) && Supply(c, states, sources, s) == {f}
  {
  }

  lemma SectionOfId(c: Network, s: Section, t: Section)
    requires Validated(c) && s in c.sections && t in c.sections && s.id == t.id
    ensures s == t
  {
    hide Validated;
    var i :| 0 <= i < |c.sections| && c.sections[i] == s;
    var j :| 0 <= j < |c.sections| && c.sections[j] == t;
    SectionsAreUnique(c, i, j);
  }

  /** Proposed sections belong to the faulted feeder, stray ones do not. */
  lemma NoStrayProposed(l: Loaded, a: AssessmentInputs, k: Candidate, f: Feeder, fault: Section, tie: Device)
    requires Validated(l.data) && CandidateShape(l, a, k, fault, tie, f)
    ensures k.sections !! Stray(l.data, a, k)
  {
    hide Validated, Newly, TopologyOf, StructuralInputs, EnergisedIn, FedIn;
    forall s | s in k.sections && s in Stray(l.data, a, k) ensures false {
      var x :| x in l.data.sections && x.feederId == fault.feederId && x.id == s;
      var y :| y in l.data.sections && y.feederId != k.affectedFeeder && y.id == s;
      SectionOfId(l.data, x, y);
    }
  }

  lemma NewlyIsCandidateAndStray(l: Loaded, a: AssessmentInputs, k: Candidate, f: Feeder, fault: Section, tie: Device)
    requires WellFormed(l.data) && Grounded(l.data, a) && PermittedMeans(l, a, k, f)
             && CandidateShape(l, a, k, fault, tie, f)
    requires a.fault !in Live(l.data, After(a, k), a.sources)
    ensures Newly(l.data, a, k) == k.sections + Stray(l.data, a, k)
    ensures k.sections !! Stray(l.data, a, k)
  {
    hide WellFormed, Validated, Grounded, PermittedMeans, Newly, PickedUp, TopologyOf, StructuralInputs, Live;
    hide SuppliedBy, Supply;
    var c := l.data;
    WellFormedFacts(c);
    SuppliedAfterClose(l, a, k, f);
    var N := Newly(c, a, k);
    NewlyAreSections(c, a, k);
    NoStrayProposed(l, a, k, f, fault, tie);
    forall s | s in N ensures s in k.sections + Stray(c, a, k) {
      var x :| x in c.sections && x.id == s;
      if x.feederId == fault.feederId { FaultedFeederIsPickedUp(l, a, k, f, fault, tie, x); }
    }
  }

  lemma NewlyAreSections(c: Network, a: AssessmentInputs, k: Candidate)
    ensures Newly(c, a, k) <= SectionIds(c)
  {
    hide Supply;
  }

  lemma FedInProposed(c: Network, a: AssessmentInputs, k: Candidate, f: Feeder, s: Id)
    requires WellFormed(c) && f in c.feeders && s in SectionIds(c) && Supply(c, After(a, k), a.sources, s) == {f.id}
    ensures FedIn(TopologyOf(c, ProposedInputs(a, k)), s, f.id)
  {
    hide WellFormed, Validated, TopologyOf, Feeds;
    WellFormedFacts(c);
    assert f.id in Supply(c, After(a, k), a.sources, s);
    var g := SupplyHas(c, After(a, k), a.sources, s, f.id);
    FeedersAreUnique(c, f, g);
    FedMeans(c, ProposedInputs(a, k), f, s);
  }

  // ---------------------------------------------------------------- delivery

  /** Executing a PERMITTED assessment leaves the network radial, supplies the proposed sections from
      the alternate feeder alone, and leaves every other feeder's supply as it was. */
  lemma ExecutionDeliversSupply(l: Loaded, a: AssessmentInputs)
    requires WellFormed(l.data) && Grounded(l.data, a) && Assess(l, a).outcome == Permitted
    ensures Assess(l, a).candidate.Some?
    ensures var k := Assess(l, a).candidate.value; var c := l.data;
            && RadialNetwork(c, After(a, k), a.sources)
            && (forall s | s in k.sections :: Supply(c, After(a, k), a.sources, s) == {k.alternateFeeder})
            && (forall g | g != k.alternateFeeder :: SuppliedBy(c, After(a, k), a.sources, g)
                                                     == SuppliedBy(c, StatesOf(a.points), a.sources, g))
  {
    hide WellFormed, Assess, CandidateOf, RadialNetwork, ProvenOpenAt, Live, TopologyAt, Feeds, Supply, SuppliedBy;
    var k, f := PermittedIsMeant(l, a);
    SuppliedAfterClose(l, a, k, f);
  }

  /** After execution the alternate feeder carries the assessed resulting load plus the load of any
      stray section, and restores the assessed customers plus any stray customers. */
  lemma ExecutionDeliversLoad(l: Loaded, a: AssessmentInputs)
    requires WellFormed(l.data) && Grounded(l.data, a) && Assess(l, a).outcome == Permitted
    ensures Assess(l, a).candidate.Some? && Assess(l, a).calculation.Some?
    ensures var k, r := Assess(l, a).candidate.value, Assess(l, a).calculation.value; var c := l.data;
            && r.resultingKw <= r.capacityKw
            && LoadOf(c.sections, SuppliedBy(c, After(a, k), a.sources, k.alternateFeeder))
               == r.resultingKw + LoadOf(c.sections, Stray(c, a, k))
            && CustomersOf(c.zones, Newly(c, a, k)) == k.restoredCustomers + CustomersOf(c.zones, Stray(c, a, k))
  {
    hide WellFormed, Assess, CandidateOf, RadialNetwork, ProvenOpenAt, Live, TopologyAt, Feeds, Supply, SuppliedBy;
    hide LoadOf, CustomersOf, Stray, Newly, TopologyOf, StructuralInputs, PickedUp;
    GroundedParts(l.data, a);
    var c := l.data;
    var k, f := PermittedIsMeant(l, a);
    var fault, tie :| CandidateShape(l, a, k, fault, tie, f);
    PermittedIsSafe(l, a);
    SuppliedAfterClose(l, a, k, f);
    NewlyIsCandidateAndStray(l, a, k, f, fault, tie);
    ExistingLoad(l, a, k);
    LoadOfUnion(c.sections, SuppliedBy(c, StatesOf(a.points), a.sources, f.id), Newly(c, a, k));
    LoadOfUnion(c.sections, k.sections, Stray(c, a, k));
    CustomersOfUnion(c.zones, k.sections, Stray(c, a, k));
    assert k.sections * a.outage.deEnergised == k.sections;
  }

  lemma ExistingLoad(l: Loaded, a: AssessmentInputs, k: Candidate)
    requires WellFormed(l.data) && Grounded(l.data, a) && Assess(l, a).outcome == Permitted
             && Assess(l, a).candidate == Some(k)
    ensures Assess(l, a).calculation.Some?
    ensures var r := Assess(l, a).calculation.value;
            && r.resultingKw <= r.capacityKw && r.resultingKw == r.existingKw + k.transferableKw
            && r.existingKw == LoadOf(l.data.sections, SuppliedBy(l.data, StatesOf(a.points), a.sources,
               k.alternateFeeder))
  {
    hide WellFormed, Assess, CandidateOf, TopologyOf, SuppliedBy, LoadOf, PermissivesOf, MultiplySupplied, Supply;
    GroundedParts(l.data, a);
    PermittedParts(l, a);
    CapacityPasses(l.data, a, k);
    LoadsMean(l.data, InputsAt(a.points, a.sources, Some(a.fault), a.time));
  }

  lemma CapacityPasses(c: Network, a: AssessmentInputs, k: Candidate)
    requires PermissivesOf(c, a, k).capacity == Pass
    ensures CalculationOf(c, a, k).Some?
    ensures var r := CalculationOf(c, a, k).value;
            && r.pass && k.alternateFeeder in FeederIds(c) && k.alternateFeeder in a.topology.loads
            && a.topology.loads[k.alternateFeeder].loadKw == Some(r.existingKw)
            && r == CapacityOf(r.existingKw, k.transferableKw, r.capacityKw)
  {
    hide TopologyOf;
  }

  /** The delivered load and customers are the assessed ones exactly when nothing stray is picked up:
      customers always, load when the stray sections carry no load. */
  lemma DeliveryMatchesAssessment(l: Loaded, a: AssessmentInputs)
    requires WellFormed(l.data) && Grounded(l.data, a) && Assess(l, a).outcome == Permitted
    ensures Assess(l, a).candidate.Some? && Assess(l, a).calculation.Some?
    ensures var k, r := Assess(l, a).candidate.value, Assess(l, a).calculation.value; var c := l.data;
            && (CustomersOf(c.zones, Newly(c, a, k)) == k.restoredCustomers <==> Stray(c, a, k) == {})
            && (LoadOf(c.sections, SuppliedBy(c, After(a, k), a.sources, k.alternateFeeder)) == r.resultingKw
                <==> LoadOf(c.sections, Stray(c, a, k)) == 0)
            && (LoadOf(c.sections, SuppliedBy(c, After(a, k), a.sources, k.alternateFeeder)) <= r.capacityKw
                <==> LoadOf(c.sections, Stray(c, a, k)) <= r.capacityKw - r.resultingKw)
  {
    hide WellFormed, Validated, Assess, SuppliedBy, LoadOf, Stray, Newly, Grounded, SectionIds;
    ExecutionDeliversLoad(l, a);
    WellFormedFacts(l.data);
    var k := Assess(l, a).candidate.value;
    StrayAreSections(l.data, a, k);
    ZonesArePresent(l.data);
    if s :| s in Stray(l.data, a, k) {
      SomeCustomers(l.data.zones, Stray(l.data, a, k), s);
    } else {
      CustomersOfNobody(l.data.zones);
    }
  }

  lemma StrayAreSections(c: Network, a: AssessmentInputs, k: Candidate)
    ensures Stray(c, a, k) <= SectionIds(c)
  {
  }

  lemma ZonesArePresent(c: Network)
    requires Validated(c)
    ensures ZonesConsistent(c)
    ensures forall s | s in SectionIds(c) :: exists z :: z in c.zones && z.sectionId == s && z.customers > 0
  {
    assert Satisfies(c, ConsistentZones);
    forall s | s in SectionIds(c) ensures exists z :: z in c.zones && z.sectionId == s && z.customers > 0 {
      assert s in (set z | z in c.zones :: z.sectionId);
    }
  }

  lemma {:induction false} CustomersOfNobody(zones: seq<ZoneMapping>)
    ensures CustomersOf(zones, {}) == 0
  {
    if zones != [] { CustomersOfNobody(zones[1..]); }
  }

  lemma {:induction false} SomeCustomers(zones: seq<ZoneMapping>, ids: set<Id>, s: Id)
    requires s in ids && exists z :: z in zones && z.sectionId == s && z.customers > 0
    ensures CustomersOf(zones, ids) > 0
  {
    var z :| z in zones && z.sectionId == s && z.customers > 0;
    if zones[0] != z {
      assert z in zones[1..];
      SomeCustomers(zones[1..], ids, s);
    }
  }

  // ---------------------------------------------------------------- time

  /** Two assessments of the same network state, at possibly different times. */
  ghost predicate SameState(a: AssessmentInputs, b: AssessmentInputs) {
    && a.points == b.points && a.sources == b.sources && a.fault == b.fault
    && a.topology.sections == b.topology.sections && a.topology.loads == b.topology.loads
    && a.outage.deEnergised == b.outage.deEnergised
  }

  lemma SameStateTryTie(l: Loaded, a: AssessmentInputs, b: AssessmentInputs, fault: Section, tie: Device)
    requires SameState(a, b)
    ensures TryTie(l, a, fault, tie) == TryTie(l, b, fault, tie)
  {
    hide TopologyOf, LoadOf, CustomersOf, FarEnds, SidesOn, PathEdges;
    if AlternateOf(l.data, fault, tie).Some? {
      var f := AlternateOf(l.data, fault, tie).value;
      assert StructuralInputs(a, tie.id, f) == StructuralInputs(b, tie.id, f);
      var t := TopologyOf(l.data, StructuralInputs(a, tie.id, f));
      assert PickedUp(l.data, a, fault.feederId, t, f.id) == PickedUp(l.data, b, fault.feederId, t, f.id);
    }
  }

  lemma {:induction false} SameStateDiscover(l: Loaded, a: AssessmentInputs, b: AssessmentInputs, fault: Section,
      ties: seq<Device>)
    requires SameState(a, b)
    ensures Discover(l, a, fault, ties) == Discover(l, b, fault, ties)
  {
    hide TryTie;
    if ties != [] {
      SameStateTryTie(l, a, b, fault, ties[0]);
      SameStateDiscover(l, a, b, fault, ties[1..]);
    }
  }

  /** The candidate does not depend on when it is looked for. */
  lemma SameStateCandidate(l: Loaded, a: AssessmentInputs, b: AssessmentInputs)
    requires SameState(a, b)
    ensures CandidateOf(l, a) == CandidateOf(l, b)
  {
    hide Discover, Ties;
    var s := SectionById(l.data, a.fault);
    if s.Some? { SameStateDiscover(l, a, b, s.value, Ties(l.data)); }
  }

  lemma GroundedSameState(c: Network, a: AssessmentInputs, b: AssessmentInputs)
    requires Grounded(c, a) && Grounded(c, b) && a.points == b.points && a.sources == b.sources && a.fault == b.fault
    ensures SameState(a, b)
  {
    hide TopologyOf, Live;
    GroundedParts(c, b);
    GroundedParts(c, a);
    SectionsIgnoreEvidence(c, InputsAt(a.points, a.sources, Some(a.fault), a.time),
                           InputsAt(b.points, b.sources, Some(b.fault), b.time));
  }

  lemma TelemetryEarlier(c: Network, a: AssessmentInputs, b: AssessmentInputs)
    requires a.points == b.points && NoFutureEvidence(a.points, a.time) && a.time <= b.time
    ensures TelemetryPermissive(c, b) != Insufficient ==> TelemetryPermissive(c, a) != Insufficient
  {
    var required := RequiredPoints(c, a.points);
    forall d | d in required && Classify(required[d], b.time).overallValid
      ensures Classify(required[d], a.time).overallValid {
    }
  }

  lemma SamePermissives(c: Network, a: AssessmentInputs, b: AssessmentInputs, k: Candidate)
    requires SameState(a, b)
    ensures PermissivesOf(c, a, k).alternate == PermissivesOf(c, b, k).alternate
    ensures PermissivesOf(c, a, k).radial == PermissivesOf(c, b, k).radial
    ensures PermissivesOf(c, a, k).capacity == PermissivesOf(c, b, k).capacity
  {
    hide TopologyOf;
    assert ProposedInputs(a, k) == ProposedInputs(b, k);
  }

  /** Waiting never enables: an assessment PERMITTED later is PERMITTED at any earlier time that is
      not before the evidence. */
  lemma PermittedEarlier(l: Loaded, a: AssessmentInputs, b: AssessmentInputs)
    requires WellFormed(l.data) && Grounded(l.data, a) && Grounded(l.data, b)
    requires a.points == b.points && a.sources == b.sources && a.fault == b.fault
    requires NoFutureEvidence(a.points, a.time) && a.time <= b.time
    requires Assess(l, b).outcome == Permitted
    ensures Assess(l, a).outcome == Permitted && Assess(l, a).candidate == Assess(l, b).candidate
  {
    hide WellFormed, TopologyOf, CandidateOf, ProvenOpenAt, IsolatedIn, AlternatePermissive, RadialPermissive;
    hide CapacityPermissive, CalculationOf, TelemetryPermissive, Live;
    GroundedParts(l.data, b);
    GroundedParts(l.data, a);
    var c := l.data;
    GroundedSameState(c, a, b);
    SameStateCandidate(l, a, b);
    PermittedParts(l, b);
    var k := CandidateOf(l, b).value;
    SamePermissives(c, a, b, k);
    TelemetryEarlier(c, a, b);
    IsolatedMeans(c, a.points, a.sources, a.fault, a.time);
    IsolatedMeans(c, b.points, b.sources, b.fault, b.time);
    PermissivesMean(c, a, k);
    PermissivesMean(c, b, k);
    ProvenOpenEarlier(c, a.fault, a.points, a.time, b.time);
  }
}
