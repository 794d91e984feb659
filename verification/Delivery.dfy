/** What an accepted EXECUTE_RESTORATION does to the network and to the outage of its run. */
module Delivery {
  import opened Ids
  import opened Configuration
  import opened Topology
  import opened Telemetry
  import opened Outage
  import opened Restoration
  import opened Energisation
  import opened TopologyFacts
  import opened Derivation
  import opened RestorationFacts
  import opened ExecutionFacts
  import opened Scenario
  import opened Handlers
  import opened RunInvariant
  import opened RunPreservation
  import opened RunSteps
  import opened FaultSafety

  /** The assessment an executable run is about to carry out. */
  function Current(r: RunRecord): Assessment
    requires Executable(r)
  {
    r.assessments[|r.assessments|-1]
  }

  /** The stored assessment and the projection at execution time agree on candidate and calculation. */
  lemma StoredIsProjected(l: Loaded, r: RunRecord, time: int)
    requires WellFormed(l.data) && RunInv(l, r) && Executable(r) && r.run.status != RunClosed
    requires Projection(l, r, time).outcome == Permitted
    ensures Projection(l, r, time).candidate == Current(r).candidate
    ensures Projection(l, r, time).calculation == Current(r).calculation
  {
    hide WellFormed, TopologyAt, OutageOf, Cached, Accounted, Logged, Invalidated, LiveNow, DeviceIds, SourceIds;
    hide SectionIds, AffectedFeeder, Grounded, SameState, Assess;
    RunInvParts(l, r);
    ExecutableIsFirst(l, r);
    var a := r.assessments[0];
    assert Faithful(l, r, a);
    OutcomeIgnoresIdentity(l, r, a.time, a.id, a.sequence);
    BindingIffStillPermitted(l, r, time);
    CalculationsAgree(l, r, a.time, time);
  }

  lemma CalculationsAgree(l: Loaded, r: RunRecord, t1: int, t2: int)
    requires WellFormed(l.data) && Grounding(l.data, r) && r.run.faultActive
    ensures Projection(l, r, t1).calculation == Projection(l, r, t2).calculation
  {
    hide WellFormed, TopologyAt, OutageOf, Grounded, DeviceIds, SourceIds, TopologyOf, CandidateOf, PermissivesOf;
    var a, b := InputsFor(l.data, r, t1, 0, 1), InputsFor(l.data, r, t2, 0, 1);
    ProjectionGrounded(l, r, t1, 0, 1);
    ProjectionGrounded(l, r, t2, 0, 1);
    GroundedSameState(l.data, a, b);
    SameStateCandidate(l, a, b);
  }

  lemma ExecutableHasFault(l: Loaded, r: RunRecord)
    requires RunInv(l, r) && Executable(r)
    ensures Grounding(l.data, r) && r.run.faultActive
  {
    RunInvParts(l, r);
  }

  /** The network after the tie of `k` is closed, as the handlers derive it. */
  lemma AfterTopology(c: Network, r: RunRecord, k: Candidate, a: AssessmentInputs, time: int, revision: nat)
    requires a.points == r.telemetry
    ensures StatesOf(Refresh(r.telemetry, k.tie, Closed, time, revision)) == After(a, k)
  {
    RefreshStates(r.telemetry, k.tie, Closed, time, revision);
  }

  /** What the record of an accepted execution shows at any time: a radial network, the proposed
      sections on the alternate feeder alone and every other feeder's supplied set unchanged. */
  lemma ExecutionSupplies(l: Loaded, r: RunRecord, req: Request, time: int)
    requires WellFormed(l.data) && RunInv(l, r) && r.run.status != RunClosed
    requires HandleExecute(l, r, req).accepted
    ensures Executable(r) && Current(r).candidate.Some?
    ensures var k := Current(r).candidate.value; var before := GateTopology(l.data, r, req.time);
            var after := GateTopology(l.data, HandleExecute(l, r, req).record, time);
            && after.radiality == Radial
            && (forall s | s in k.sections :: s in after.sections && after.sections[s].feeders == {k.alternateFeeder})
            && before.loads.Keys == after.loads.Keys == FeederIds(l.data)
            && (forall g | g in after.loads && g != k.alternateFeeder ::
                  after.loads[g].supplied == before.loads[g].supplied)
            && r.run.fault in after.sections && after.sections[r.run.fault].paths == []
  {
    hide WellFormed, TopologyAt, OutageOf, Cached, Accounted, Logged, AssessedOnce, Invalidated, Grounding, EventsFrom;
    hide BindingMatches, Projection, Workflow;
    ExecutableHasFault(l, r);
    BindingIffStillPermitted(l, r, req.time);
    var k := Current(r).candidate.value;
    ExecutedGate(l, r, req, time);
    ExecutionSafePath(l, r, req, time);
    SuppliesAfter(l, r, k, req.time, time);
    assert ActiveFault(r.run) == Some(r.run.fault);
  }

  lemma ExecutedGate(l: Loaded, r: RunRecord, req: Request, time: int)
    requires Runnable(l.data, r) && HandleExecute(l, r, req).accepted
    ensures GateTopology(l.data, HandleExecute(l, r, req).record, time)
         == TopologyAt(l.data, Refresh(r.telemetry, CurrentTie(r), Closed, req.time, r.run.revision + 1),
                       r.run.sources, ActiveFault(r.run), time)
  {
    hide TopologyAt, OutageOf, EventsFrom, BindingMatches, Projection;
  }

  lemma ExecutionSafePath(l: Loaded, r: RunRecord, req: Request, time: int)
    requires WellFormed(l.data) && RunInv(l, r) && r.run.status != RunClosed && HandleExecute(l, r, req).accepted
    ensures var t := TopologyAt(l.data, Refresh(r.telemetry, CurrentTie(r), Closed, req.time, r.run.revision + 1),
                                r.run.sources, ActiveFault(r.run), time);
            r.run.fault in t.sections && t.sections[r.run.fault].paths == []
  {
    hide WellFormed, TopologyAt, OutageOf, Cached, Accounted, Logged, AssessedOnce, Invalidated, EventsFrom;
    hide BindingMatches, Projection, Workflow, SectionIds, DeviceIds, SourceIds, BoundariesOpen, BoundarySet;
    RunInvParts(l, r);
    BindingIffStillPermitted(l, r, req.time);
    ExecutionIsSafe(l, r, req.time);
    OpenBoundariesNoPath(l.data, Refresh(r.telemetry, CurrentTie(r), Closed, req.time, r.run.revision + 1),
                         r.run.sources, ActiveFault(r.run), r.run.fault, time);
  }

  lemma SuppliesAfter(l: Loaded, r: RunRecord, k: Candidate, now: int, time: int)
    requires WellFormed(l.data) && Grounding(l.data, r) && r.run.faultActive
    requires Projection(l, r, now).outcome == Permitted && Projection(l, r, now).candidate == Some(k)
    ensures var before := TopologyAt(l.data, r.telemetry, r.run.sources, Some(r.run.fault), now);
            var after := TopologyAt(l.data, Refresh(r.telemetry, k.tie, Closed, now, r.run.revision + 1),
                                    r.run.sources, Some(r.run.fault), time);
            && after.radiality == Radial
            && (forall s | s in k.sections :: s in after.sections && after.sections[s].feeders == {k.alternateFeeder})
            && before.loads.Keys == after.loads.Keys == FeederIds(l.data)
            && (forall g | g in after.loads && g != k.alternateFeeder ::
                  after.loads[g].supplied == before.loads[g].supplied)
  {
    hide WellFormed, TopologyOf, OutageOf, Grounded, DeviceIds, SourceIds, SectionIds, FeederIds, Assess, SuppliedBy;
    hide Supply, Live, RadialNetwork, MultiplySupplied;
    var c := l.data;
    var a := InputsFor(c, r, now, 0, 1);
    ProjectionGrounded(l, r, now, 0, 1);
    ExecutionDeliversSupply(l, a);
    AfterTopology(c, r, k, a, now, r.run.revision + 1);
    var i := InputsAt(r.telemetry, r.run.sources, Some(r.run.fault), now);
    var j := InputsAt(Refresh(r.telemetry, k.tie, Closed, now, r.run.revision + 1), r.run.sources, Some(r.run.fault),
                      time);
    assert j.states == After(a, k);
    RadialityMeans(c, j);
    SectionsMean(c, j);
    LoadsMean(c, i);
    LoadsMean(c, j);
    ProposedAreSections(l, a, k);
  }

  lemma ProposedAreSections(l: Loaded, a: AssessmentInputs, k: Candidate)
    requires WellFormed(l.data) && Grounded(l.data, a) && Assess(l, a).outcome == Permitted
             && Assess(l, a).candidate == Some(k)
    ensures k.sections <= SectionIds(l.data) && k.alternateFeeder in FeederIds(l.data)
  {
    hide WellFormed, Assess, Grounded, CandidateOf, RadialNetwork, ProvenOpenAt;
    var k0, f := PermittedIsMeant(l, a);
  }

  /** The load and the customers an accepted execution delivers: the assessed ones plus those of any
      stray section, so exactly the assessed ones when nothing stray is energised. */
  lemma ExecutionDelivers(l: Loaded, r: RunRecord, req: Request, time: int)
    requires WellFormed(l.data) && RunInv(l, r) && r.run.status != RunClosed
    requires HandleExecute(l, r, req).accepted
    ensures Executable(r) && Current(r).candidate.Some? && Current(r).calculation.Some?
    ensures var k, m := Current(r).candidate.value, Current(r).calculation.value;
            var s := HandleExecute(l, r, req).record; var after := GateTopology(l.data, s, time);
            var stray := Stray(l.data, InputsFor(l.data, r, req.time, 0, 1), k);
            && m.resultingKw <= m.capacityKw
            && k.alternateFeeder in after.loads
            && after.loads[k.alternateFeeder].loadKw == Some(m.resultingKw + LoadOf(l.data.sections, stray))
            && s.run.revision in s.outages
            && s.outages[s.run.revision].restoredDelta == k.restoredCustomers + CustomersOf(l.data.zones, stray)
            && (s.outages[s.run.revision].restoredDelta == k.restoredCustomers <==> stray == {})
            && (stray == {} ==> after.loads[k.alternateFeeder].loadKw == Some(m.resultingKw))
  {
    hide WellFormed, TopologyAt, OutageOf, Cached, Accounted, Logged, AssessedOnce, Invalidated, Grounding, EventsFrom;
    hide BindingMatches, Projection, Workflow, GateTopology, InputsFor, Stray, LoadOf, CustomersOf;
    ExecutableHasFault(l, r);
    BindingIffStillPermitted(l, r, req.time);
    StoredIsProjected(l, r, req.time);
    ExecutedGate(l, r, req, time);
    var k := Current(r).candidate.value;
    LoadDelivered(l, r, k, req.time, time);
    CustomersDelivered(l, r, req, k);
    NobodyStray(l.data);
  }

  lemma NobodyStray(c: Network)
    ensures LoadOf(c.sections, {}) == 0
  {
    NoLoad(c.sections);
  }

  lemma {:induction false} NoLoad(sections: seq<Section>)
    ensures LoadOf(sections, {}) == 0
  {
    if sections != [] { NoLoad(sections[..|sections|-1]); }
  }

  lemma LoadDelivered(l: Loaded, r: RunRecord, k: Candidate, now: int, time: int)
    requires WellFormed(l.data) && Grounding(l.data, r) && r.run.faultActive
    requires Projection(l, r, now).outcome == Permitted && Projection(l, r, now).candidate == Some(k)
    ensures Projection(l, r, now).calculation.Some?
    ensures var m := Projection(l, r, now).calculation.value;
            var stray := Stray(l.data, InputsFor(l.data, r, now, 0, 1), k);
            var after := TopologyAt(l.data, Refresh(r.telemetry, k.tie, Closed, now, r.run.revision + 1),
                                    r.run.sources, Some(r.run.fault), time);
            && m.resultingKw <= m.capacityKw
            && k.alternateFeeder in after.loads
            && after.loads[k.alternateFeeder].loadKw == Some(m.resultingKw + LoadOf(l.data.sections, stray))
  {
    hide WellFormed, TopologyOf, OutageOf, Grounded, DeviceIds, SourceIds, SectionIds, FeederIds, Assess, SuppliedBy;
    hide Supply, Live, RadialNetwork, MultiplySupplied, LoadOf, Stray, Newly;
    var c := l.data;
    var a := InputsFor(c, r, now, 0, 1);
    ProjectionGrounded(l, r, now, 0, 1);
    ExecutionDeliversSupply(l, a);
    ExecutionDeliversLoad(l, a);
    AfterTopology(c, r, k, a, now, r.run.revision + 1);
    var j := InputsAt(Refresh(r.telemetry, k.tie, Closed, now, r.run.revision + 1), r.run.sources, Some(r.run.fault),
                      time);
    assert j.states == After(a, k);
    LoadsMean(c, j);
    ProposedAreSections(l, a, k);
    RadialIsComplete(c, j, k.alternateFeeder);
  }

  lemma RadialIsComplete(c: Network, i: Inputs, f: Id)
    requires WellFormed(c) && RadialNetwork(c, i.states, i.sources) && f in FeederIds(c)
    ensures f in TopologyOf(c, i).loads && TopologyOf(c, i).loads[f].complete
  {
    hide WellFormed, TopologyOf, RadialNetwork;
    RadialityMeans(c, i);
    LoadConserved(c, i);
  }

  lemma CustomersDelivered(l: Loaded, r: RunRecord, req: Request, k: Candidate)
    requires WellFormed(l.data) && RunInv(l, r) && r.run.status != RunClosed && HandleExecute(l, r, req).accepted
    requires Projection(l, r, req.time).outcome == Permitted && Projection(l, r, req.time).candidate == Some(k)
             && k.tie == CurrentTie(r)
    ensures var s := HandleExecute(l, r, req).record;
            var stray := Stray(l.data, InputsFor(l.data, r, req.time, 0, 1), k);
            && s.run.revision in s.outages
            && s.outages[s.run.revision].restoredDelta == k.restoredCustomers + CustomersOf(l.data.zones, stray)
            && (s.outages[s.run.revision].restoredDelta == k.restoredCustomers <==> stray == {})
  {
    hide WellFormed, TopologyAt, OutageOf, Accounted, Logged, AssessedOnce, Invalidated, EventsFrom, BindingMatches;
    hide Workflow, LiveNow, Stray, Newly, CustomersOf, Grounded, Assess, DeviceIds, SourceIds, SectionIds;
    RunInvParts(l, r);
    var c := l.data;
    ExecutableHasFault(l, r);
    var a := InputsFor(c, r, req.time, 0, 1);
    ProjectionGrounded(l, r, req.time, 0, 1);
    ExecutionDeliversLoad(l, a);
    DeliveryMatchesAssessment(l, a);
    var s := ExecutedRecord(c, r, req.time);
    var points := Refresh(r.telemetry, k.tie, Closed, req.time, r.run.revision + 1);
    AdvanceOutage(c, r, s.run, points);
    NewlyIsRestored(c, r, k, a, points);
  }

  lemma NewlyIsRestored(c: Network, r: RunRecord, k: Candidate, a: AssessmentInputs, points: map<Id, Point>)
    requires a.points == r.telemetry && a.sources == r.run.sources && StatesOf(points) == After(a, k)
    ensures LiveNow(c, points, r.run.sources) * (SectionIds(c) - LiveOf(c, r)) == Newly(c, a, k)
  {
    hide Live;
    LiveAreSections(c, points, r.run.sources);
  }
}
