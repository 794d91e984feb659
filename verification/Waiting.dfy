/** Waiting never enables a command: what is accepted later was accepted earlier. */
module Waiting {
  import opened Ids
  import opened Configuration
  import opened Topology
  import opened Telemetry
  import opened Outage
  import opened Restoration
  import opened Energisation
  import opened TopologyFacts
  import opened Derivation
  import opened RestorationFacts
  import opened ExecutionFacts
  import opened Scenario
  import opened Handlers
  import opened RunInvariant
  import opened RunPreservation
  import opened RunSteps

  // ---------------------------------------------------------------- isolation targets

  lemma {:induction false} EvaluationOfListed(boundaries: seq<Id>, o: map<Id, Observation>, d: Id)
    requires d in boundaries
    ensures EvaluationOf(Evaluations(boundaries, o), d) == Some(Evaluate(d, ObservationOf(o, d)))
  {
    var n := |boundaries| - 1;
    var evaluations := Evaluations(boundaries, o);
    assert evaluations[..n] == Evaluations(boundaries[..n], o);
    if boundaries[n] != d {
      assert d in boundaries[..n];
      EvaluationOfListed(boundaries[..n], o, d);
    }
  }

  lemma {:induction false} FirstEvaluationOfListed(boundaries: seq<Id>, o: map<Id, Observation>, d: Id)
    requires d in boundaries
    ensures FirstEvaluationOf(Evaluations(boundaries, o), d) == Some(Evaluate(d, ObservationOf(o, d)))
  {
    var evaluations := Evaluations(boundaries, o);
    assert evaluations[1..] == Evaluations(boundaries[1..], o);
    if boundaries[0] != d {
      assert d in boundaries[1..];
      FirstEvaluationOfListed(boundaries[1..], o, d);
    }
  }

  lemma {:induction false} NextTargetEarlier(ordered: seq<Id>, boundaries: seq<Id>, points: map<Id, Point>,
      earlier: int, later: int)
    requires forall d | d in ordered :: d in boundaries
    requires NoFutureEvidence(points, earlier) && earlier <= later
    requires NextTarget(ordered, Evaluations(boundaries, ObservationsAt(points, later))).Some?
    ensures NextTarget(ordered, Evaluations(boundaries, ObservationsAt(points, earlier)))
         == NextTarget(ordered, Evaluations(boundaries, ObservationsAt(points, later)))
  {
    hide Evaluations, ObservationsAt, StatusOf, FreshnessAt, Classify;
    var d := ordered[0];
    EvaluationOfListed(boundaries, ObservationsAt(points, later), d);
    EvaluationOfListed(boundaries, ObservationsAt(points, earlier), d);
    assert StatusAt(points, d, later) != Unproven;
    StatusEarlier(points, d, earlier, later);
    if StatusAt(points, d, later) == ProvenOpen {
      assert forall x | x in ordered[1..] :: x in ordered;
      NextTargetEarlier(ordered[1..], boundaries, points, earlier, later);
    }
  }

  lemma GateProof(c: Network, r: RunRecord, time: int)
    requires r.run.faultActive
    ensures var t := GateTopology(c, r, time);
            t.proof.Some? && t.proof.value.boundaries == Boundaries(c, r.run.fault)
            && t.proof.value.evaluations == Evaluations(Boundaries(c, r.run.fault), ObservationsAt(r.telemetry, time))
  {
    hide Evaluations, Boundaries, SectionStates, RadialityOf, ImproperComponents, DistributionGraph, FeederLoadOf;
    hide SectionPaths, AvailableFeeders, ActiveFeeders;
  }

  lemma TargetEarlier(c: Network, def: Definition, r: RunRecord, target: Option<Id>, earlier: int, later: int)
    requires NoFutureEvidence(r.telemetry, earlier) && earlier <= later && r.run.faultActive && target.Some?
    requires TargetAvailable(def, r.run, GateTopology(c, r, later), target)
    ensures TargetAvailable(def, r.run, GateTopology(c, r, earlier), target)
  {
    hide Evaluations, Boundaries, TopologyAt, OrderedBoundaries, NextTarget, EvaluationOf, FirstEvaluationOf;
    hide ObservationsAt, StatusOf, NoFutureEvidence;
    GateProof(c, r, earlier);
    GateProof(c, r, later);
    var boundaries := Boundaries(c, r.run.fault);
    if r.run.mode == Exploration {
      FirstEvaluationOfListed(boundaries, ObservationsAt(r.telemetry, later), target.value);
      FirstEvaluationOfListed(boundaries, ObservationsAt(r.telemetry, earlier), target.value);
      NotAfter(r.telemetry, target.value, earlier);
      StatusEarlier(r.telemetry, target.value, earlier, later);
    } else {
      OrderedMembers(def, r.run.mode, boundaries);
      NextTargetEarlier(OrderedBoundaries(def, r.run.mode, boundaries), boundaries, r.telemetry, earlier, later);
    }
  }

  lemma NotAfter(points: map<Id, Point>, d: Id, time: int)
    requires NoFutureEvidence(points, time)
    ensures d in points ==> points[d].updated <= time
  {
  }

  // ---------------------------------------------------------------- reclosing

  /** Sections other than the fault that closing the affected breaker would newly energise. */
  function RecloseGain(c: Network, r: RunRecord): set<Id>
    requires Runnable(c, r)
  {
    Live(c, StatesOf(r.telemetry)[BreakerId(c, r) := Closed], r.run.sources) - LiveOf(c, r) - {r.run.fault}
  }

  lemma ProvenAfterClosing(c: Network, fault: Id, points: map<Id, Point>, b: Id, time: int, revision: nat)
    ensures ProvenOpenAt(c, fault, Refresh(points, b, Closed, time, revision), time)
            <==> b !in BoundarySet(c, fault) && ProvenOpenAt(c, fault, points, time)
  {
    hide BoundarySet, Classify;
    var closed := Refresh(points, b, Closed, time, revision);
    StatusMeans(closed, b, time);
    forall d | d != b ensures StatusAt(closed, d, time) == StatusAt(points, d, time) {
      assert ObservationsAt(closed, time).Keys == ObservationsAt(points, time).Keys + {b};
      assert d in points ==> closed[d] == points[d];
    }
  }

  lemma HealthyMeans(c: Network, points: map<Id, Point>, sources: Sources, fault: Id, time: int)
    requires WellFormed(c)
    ensures HealthyEnergised(TopologyAt(c, points, sources, Some(fault), time))
            == SectionIds(c) * LiveNow(c, points, sources) - {fault}
  {
    hide WellFormed, TopologyOf, SectionIds, Live;
    SectionsMean(c, InputsAt(points, sources, Some(fault), time));
  }

  /** The reclose gate in terms that involve time only through the isolation evidence. */
  lemma RecloseIff(c: Network, r: RunRecord, time: int)
    requires WellFormed(c) && Runnable(c, r) && Grounding(c, r) && r.run.faultActive
    ensures RecloseAvailable(c, r, time) <==>
              && r.telemetry[BreakerId(c, r)].value == Open && BreakerId(c, r) !in BoundarySet(c, r.run.fault)
              && ProvenOpenAt(c, r.run.fault, r.telemetry, time) && RecloseGain(c, r) != {}
  {
    hide WellFormed, TopologyAt, SectionIds, DeviceIds, SourceIds, BoundarySet, IsolatedIn, HealthyEnergised;
    hide ProvenOpenAt, Live;
    var b := BreakerId(c, r);
    var points := Refresh(r.telemetry, b, Closed, time, r.run.revision + 1);
    IsolatedMeans(c, points, r.run.sources, r.run.fault, time);
    ProvenAfterClosing(c, r.run.fault, r.telemetry, b, time, r.run.revision + 1);
    HealthyMeans(c, points, r.run.sources, r.run.fault, time);
    HealthyMeans(c, r.telemetry, r.run.sources, r.run.fault, time);
    RefreshStates(r.telemetry, b, Closed, time, r.run.revision + 1);
    LiveAreSections(c, points, r.run.sources);
    LiveAreSections(c, r.telemetry, r.run.sources);
    var A, B := LiveNow(c, points, r.run.sources), LiveOf(c, r);
    assert (SectionIds(c) * A - {r.run.fault}) - (SectionIds(c) * B - {r.run.fault}) == A - B - {r.run.fault};
  }

  lemma IsolatedEarlier(c: Network, r: RunRecord, earlier: int, later: int)
    requires WellFormed(c) && Grounding(c, r) && r.run.faultActive && r.run.time <= earlier <= later
    requires IsolatedIn(GateTopology(c, r, later))
    ensures IsolatedIn(GateTopology(c, r, earlier))
    ensures ProvenOpenAt(c, r.run.fault, r.telemetry, later) && ProvenOpenAt(c, r.run.fault, r.telemetry, earlier)
  {
    hide WellFormed, TopologyAt, SectionIds, DeviceIds, SourceIds, BoundarySet, IsolatedIn, ProvenOpenAt;
    IsolatedMeans(c, r.telemetry, r.run.sources, r.run.fault, later);
    IsolatedMeans(c, r.telemetry, r.run.sources, r.run.fault, earlier);
    ProvenOpenEarlier(c, r.run.fault, r.telemetry, earlier, later);
  }

  /** While isolation is proven, whether a reclose is available does not change with time. */
  lemma RecloseSteady(c: Network, r: RunRecord, earlier: int, later: int)
    requires WellFormed(c) && Runnable(c, r) && Grounding(c, r) && r.run.faultActive && r.run.time <= earlier <= later
    requires IsolatedIn(GateTopology(c, r, later))
    ensures IsolatedIn(GateTopology(c, r, earlier))
    ensures RecloseAvailable(c, r, earlier) <==> RecloseAvailable(c, r, later)
  {
    hide WellFormed, TopologyAt, SectionIds, DeviceIds, SourceIds, BoundarySet, IsolatedIn, ProvenOpenAt;
    hide RecloseAvailable, RecloseGain, Runnable, Grounding;
    IsolatedEarlier(c, r, earlier, later);
    RecloseIff(c, r, earlier);
    RecloseIff(c, r, later);
  }

  // ---------------------------------------------------------------- every command

  lemma PermittedStillEarlier(l: Loaded, r: RunRecord, earlier: int, later: int)
    requires WellFormed(l.data) && Grounding(l.data, r) && r.run.faultActive && r.run.time <= earlier <= later
    requires Projection(l, r, later).outcome == Permitted
    ensures Projection(l, r, earlier).outcome == Permitted
  {
    hide WellFormed, TopologyAt, OutageOf, Assess, Grounded, DeviceIds, SourceIds;
    ProjectionGrounded(l, r, earlier, 0, 1);
    ProjectionGrounded(l, r, later, 0, 1);
    PermittedEarlier(l, InputsFor(l.data, r, earlier, 0, 1), InputsFor(l.data, r, later, 0, 1));
  }

  lemma RestoreEarlier(l: Loaded, r: RunRecord, req: Request, earlier: int)
    requires WellFormed(l.data) && RunInv(l, r) && r.run.time <= earlier <= req.time
    requires HandleRestore(l.data, r, req).accepted
    ensures HandleRestore(l.data, r, req.(time := earlier)).accepted
  {
    hide WellFormed, TopologyAt, OutageOf, Cached, Accounted, Logged, AssessedOnce, Invalidated, IsolatedIn;
    hide RecloseAvailable, Grounding, EventsFrom, RestoredRecord;
    RunInvParts(l, r);
    RecloseSteady(l.data, r, earlier, req.time);
  }

  lemma AssessEarlier(l: Loaded, r: RunRecord, req: Request, earlier: int)
    requires WellFormed(l.data) && RunInv(l, r) && r.run.time <= earlier <= req.time
    requires HandleAssess(l, r, req).accepted
    ensures HandleAssess(l, r, req.(time := earlier)).accepted
  {
    hide WellFormed, TopologyAt, OutageOf, Cached, Accounted, Logged, AssessedOnce, Invalidated, IsolatedIn;
    hide RecloseAvailable, Grounding, EventsFrom, AssessedRecord, LastInvalidated;
    RunInvParts(l, r);
    if IsolatedWithoutReclose(l.data, r, req.time) { RecloseSteady(l.data, r, earlier, req.time); }
  }

  lemma ExecuteEarlier(l: Loaded, r: RunRecord, req: Request, earlier: int)
    requires WellFormed(l.data) && RunInv(l, r) && r.run.status != RunClosed && r.run.time <= earlier <= req.time
    requires HandleExecute(l, r, req).accepted
    ensures HandleExecute(l, r, req.(time := earlier)).accepted
  {
    hide WellFormed, TopologyAt, OutageOf, Cached, Accounted, Logged, AssessedOnce, Invalidated, Grounding, EventsFrom;
    hide ExecutedRecord, BindingMatches, Projection;
    RunInvParts(l, r);
    BindingIffStillPermitted(l, r, req.time);
    BindingIffStillPermitted(l, r, earlier);
    PermittedStillEarlier(l, r, earlier, req.time);
  }

  lemma IsolationEarlier(l: Loaded, def: Definition, r: RunRecord, req: Request, earlier: int)
    requires WellFormed(l.data) && RunInv(l, r) && r.run.time <= earlier <= req.time
    requires WellShaped(req) && req.kind == OperateIsolationDevice && HandleIsolation(l.data, def, r, req).accepted
    ensures HandleIsolation(l.data, def, r, req.(time := earlier)).accepted
  {
    hide WellFormed, TopologyAt, OutageOf, Cached, Accounted, Logged, AssessedOnce, Invalidated, EventsFrom;
    hide IsolatedRecord, TargetAvailable, SectionIds, DeviceIds, SourceIds;
    RunInvParts(l, r);
    TargetIsDevice(l.data, def, r, req.time, req.target);
    TargetEarlier(l.data, def, r, req.target, earlier, req.time);
  }

  /** A command accepted at some time is accepted at every earlier time not before the run's own. */
  lemma WaitingNeverEnables(l: Loaded, def: Definition, r: RunRecord, req: Request, earlier: int)
    requires WellFormed(l.data) && RunInv(l, r) && WellShaped(req) && Runnable(l.data, r)
    requires r.run.time <= earlier <= req.time && StepOf(l, def, r, req).accepted
    ensures StepOf(l, def, r, req.(time := earlier)).accepted
  {
    hide WellFormed, RunInv, HandleRestore, HandleAssess, HandleExecute, HandleIsolation, FaultedRecord, Close;
    hide Runnable;
    match req.kind
    case InitiateFault =>
    case AcknowledgeAlarm =>
    case OperateIsolationDevice => IsolationEarlier(l, def, r, req, earlier);
    case RestoreNormalSource => RestoreEarlier(l, r, req, earlier);
    case AssessRestoration => AssessEarlier(l, r, req, earlier);
    case ExecuteRestoration => ExecuteEarlier(l, r, req, earlier);
    case ResetRun =>
  }
}
