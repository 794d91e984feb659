/** The search for a restoration candidate, tie by tie, with the topology calculation it relies on. */
module RestorationService {
  import opened Ids
  import opened Configuration
  import opened Topology
  import opened Outage
  import opened Restoration
  import opened RestorationFacts
  import opened AssessmentMeaning
  import TopologyService

  lemma ScenarioInputsComplete(c: Network, states: States, sources: Sources, fault: Id)
    requires WellFormed(c) && states.Keys == DeviceIds(c) && sources.Keys == SourceIds(c) && fault in SectionIds(c)
    ensures Complete(c, ScenarioInputs(states, sources, fault))
            && SourceEdgesPresent(c, ScenarioInputs(states, sources, fault))
  {
    hide WellFormed, SourceEdge;
    WellFormedFacts(c);
  }

  lemma StructuralComplete(c: Network, a: AssessmentInputs, tie: Device, f: Feeder)
    requires WellFormed(c) && a.points.Keys == DeviceIds(c) && a.sources.Keys == SourceIds(c)
             && a.fault in SectionIds(c)
    requires tie in c.devices && f in c.feeders
    ensures Complete(c, StructuralInputs(a, tie.id, f)) && SourceEdgesPresent(c, StructuralInputs(a, tie.id, f))
  {
    hide WellFormed, Validated, Complete, SourceEdgesPresent, SectionIds;
    WellFormedFacts(c);
    FeederIsGrounded(c, f);
    var states := StatesOf(a.points)[tie.id := Closed][f.breakerId := Closed];
    assert states.Keys == DeviceIds(c);
    ScenarioInputsComplete(c, states, a.sources[f.sourceId := SourceAvailability.Available], a.fault);
  }

  lemma AlternateIsFeeder(c: Network, fault: Section, tie: Device)
    ensures AlternateOf(c, fault, tie).Some? ==> AlternateOf(c, fault, tie).value in c.feeders
  {
    hide FarEnds, SidesOn, FirstOutside;
  }

  lemma FeederIsGrounded(c: Network, f: Feeder)
    requires Validated(c) && f in c.feeders
    ensures f.breakerId in DeviceIds(c) && f.sourceId in SourceIds(c)
  {
    assert Satisfies(c, ConsistentFeeders);
    assert FeederConsistent(c, f);
  }

  /** The first tie, in identifier order, that picks anything up decides the candidate. */
  method DiscoverCandidate(l: Loaded, a: AssessmentInputs) returns (k: Option<Candidate>)
    requires WellFormed(l.data) && a.points.Keys == DeviceIds(l.data) && a.sources.Keys == SourceIds(l.data)
             && a.fault in SectionIds(l.data)
    ensures k == CandidateOf(l, a)
  {
    hide WellFormed, Validated, TopologyOf, Complete, SourceEdgesPresent, AlternateOf, PickedUp, DeviceLeq;
    var fault := SectionById(l.data, a.fault).value;
    var ties := Ties(l.data);
    TieDevicesMembers(l.data.devices);
    SortElements(TieDevices(l.data.devices), DeviceLeq);
    WellFormedFacts(l.data);
    k := None;
    for i := 0 to |ties|
      invariant Discover(l, a, fault, ties) == Discover(l, a, fault, ties[i..])
    {
      var tie := ties[i];
      assert tie in ties && ties[i..][0] == tie && ties[i..][1..] == ties[i + 1..];
      var alternate := AlternateOf(l.data, fault, tie);
      if alternate.Some? {
        var f := alternate.value;
        AlternateIsFeeder(l.data, fault, tie);
        StructuralComplete(l.data, a, tie, f);
        var calculated := TopologyService.Calculate(l.data, StructuralInputs(a, tie.id, f));
        var structural := calculated.result;
        var sections := PickedUp(l.data, a, fault.feederId, structural, f.id);
        if sections != {} {
          k := Some(Candidate(
            CandidateKey(l.configurationId, a.fault, tie.id, f.id, sections),
            fault.feederId, f.id, f.sourceId, f.breakerId, tie.id, sections,
            PathEdges(structural, sections, f.id), LoadOf(l.data.sections, sections),
            CustomersOf(l.data.zones, sections * a.outage.deEnergised)));
          return;
        }
      }
    }
  }

  /** The assessment of the first candidate, or of its absence. */
  method AssessCandidate(l: Loaded, a: AssessmentInputs) returns (r: Assessment)
    requires WellFormed(l.data) && a.points.Keys == DeviceIds(l.data) && a.sources.Keys == SourceIds(l.data)
             && a.fault in SectionIds(l.data)
    ensures r == Assess(l, a)
    ensures Grounded(l.data, a) ==> AssessmentSays(l, a, r)
  {
    hide WellFormed, CandidateOf, PermissivesOf, CalculationOf, Grounded, AssessmentSays;
    if Grounded(l.data, a) { AssessmentMeans(l, a); }
    var candidate := DiscoverCandidate(l, a);
    var required := RequiredPoints(l.data, a.points);
    match candidate {
      case None =>
        r := Assessment(a.id, a.sequence, a.runId, l.configurationId, a.revision, a.time, None, required, a.sources,
                        None, None, NoCandidate);
      case Some(k) =>
        var p := PermissivesOf(l.data, a, k);
        r := Assessment(a.id, a.sequence, a.runId, l.configurationId, a.revision, a.time,
                        candidate, required, a.sources, Some(p), CalculationOf(l.data, a, k), OutcomeOf(p));
    }
  }
}
