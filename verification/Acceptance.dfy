/** Exactly when a command is accepted, said of the run's record, its evidence and its network, and what a
    refused one is told. */
module Acceptance {
  import opened Ids
  import opened Configuration
  import opened Topology
  import opened Telemetry
  import opened Outage
  import opened Restoration
  import opened Energisation
  import opened TopologyFacts
  import opened Derivation
  import opened RestorationFacts
  import opened AssessmentMeaning
  import opened ExecutionFacts
  import opened Scenario
  import opened Handlers
  import opened RunInvariant
  import opened RunSteps
  import opened FaultSafety
  import opened Waiting
  import opened IsolationOrder
  import opened Advertised

  // ---------------------------------------------------------------- the parts of a run that gates look at

  /** The breaker of the feeder that owns the fault section. */
  ghost predicate IsAffectedBreaker(c: Network, fault: Id, b: Id) {
    exists s, f :: s in c.sections && f in c.feeders && s.id == fault && f.id == s.feederId && b == f.breakerId
  }

  lemma BreakerIsAffected(c: Network, r: RunRecord)
    requires WellFormed(c) && Runnable(c, r)
    ensures forall b :: IsAffectedBreaker(c, r.run.fault, b) <==> b == BreakerId(c, r)
  {
    hide WellFormed, Validated, SectionById, FeederById;
    WellFormedFacts(c);
    var s := SectionOf(c, r.run.fault);
    forall f | f in c.feeders && f.id == s.feederId ensures f.breakerId == BreakerId(c, r) { FeederIsNamed(c, f); }
  }

  ghost predicate WasInvalidated(r: RunRecord, a: Assessment)
    { exists i :: i in r.invalidations && i.assessment == a.id }

  function LastAssessment(r: RunRecord): Option<Assessment> {
    if r.assessments == [] then None else Some(r.assessments[|r.assessments|-1])
  }

  lemma InvalidatedMeans(r: RunRecord, a: Assessment)
    ensures a.id in InvalidatedIds(r) <==> WasInvalidated(r, a)
  {
  }

  /** Every point that an assessment requires is trustworthy at this time. */
  predicate MonitoredHold(c: Network, points: map<Id, Point>, time: int) {
    forall d | d in c.devices && d.monitored && d.id in points :: Trustworthy(points[d.id], time)
  }

  // ---------------------------------------------------------------- the gates, command by command

  /** Reclosing the affected breaker is a safe step with something to gain: it is open and off the boundary,
      every boundary is observed open, and a healthy section would come back. */
  ghost predicate SafeReclose(c: Network, r: RunRecord, time: int)
    requires Runnable(c, r)
  {
    && r.telemetry[BreakerId(c, r)].value == Open && BreakerId(c, r) !in BoundarySet(c, r.run.fault)
    && BoundaryProven(c, r.telemetry, r.run.fault, time) && RecloseGain(c, r) != {}
  }

  ghost predicate MayRestore(c: Network, r: RunRecord, req: Request)
    requires Runnable(c, r)
  {
    && r.run.network == N2 && req.target == Some(BreakerId(c, r)) && req.state == Some(Closed)
    && BoundaryProven(c, r.telemetry, r.run.fault, req.time)
    && (r.run.mode == Exploration ==> SafeReclose(c, r, req.time))
  }

  ghost predicate MayAssess(c: Network, r: RunRecord, time: int)
    requires Runnable(c, r)
  {
    || r.run.network == N3
    || (r.run.network == N2 && r.run.mode == Exploration && BoundaryProven(c, r.telemetry, r.run.fault, time)
        && !SafeReclose(c, r, time))
    || (r.run.network == N4 && LastAssessment(r).Some? && WasInvalidated(r, LastAssessment(r).value))
  }

  /** The request names the last assessment, which is PERMITTED and still stands. */
  ghost predicate NamesPermitted(r: RunRecord, req: Request) {
    && r.run.network == N4 && LastAssessment(r).Some?
    && (var a := LastAssessment(r).value;
        req.assessment == Some(a.id) && a.outcome == Permitted && !WasInvalidated(r, a))
  }

  /** The evidence the assessment rested on still holds. */
  ghost predicate EvidenceStands(c: Network, r: RunRecord, time: int) {
    BoundaryProven(c, r.telemetry, r.run.fault, time) && MonitoredHold(c, r.telemetry, time)
  }

  ghost predicate MayAcknowledge(r: RunRecord, alarm: Option<nat>) {
    exists a :: a in r.alarms && a.active && !a.acknowledged && alarm == Some(a.id)
  }

  /** What the run must satisfy for each command, besides the guards common to all. */
  ghost predicate Acceptable(c: Network, def: Definition, r: RunRecord, req: Request)
    requires Runnable(c, r) && WellShaped(req)
  {
    match req.kind
    case InitiateFault => r.run.network == N0 && r.telemetry[BreakerId(c, r)].value == Closed
    case AcknowledgeAlarm => MayAcknowledge(r, req.alarm)
    case OperateIsolationDevice => req.state == Some(Open) && MayOpen(c, def, r, req.target.value, req.time)
    case RestoreNormalSource => MayRestore(c, r, req)
    case AssessRestoration => MayAssess(c, r, req.time)
    case ExecuteRestoration => NamesPermitted(r, req) && EvidenceStands(c, r, req.time)
    case ResetRun => true
  }

  // ---------------------------------------------------------------- proofs, command by command

  lemma FaultMeans(l: Loaded, def: Definition, r: RunRecord, req: Request)
    requires RunInv(l, r) && Runnable(l.data, r) && WellShaped(req) && req.kind == InitiateFault
    ensures HandleFault(l.data, r, req).accepted <==> Acceptable(l.data, def, r, req)
    ensures !HandleFault(l.data, r, req).accepted ==>
              HandleFault(l.data, r, req)
              == Reject(r, if r.run.network != N0 then FaultInitiationUnavailable else AffectedBreakerNotClosed)
  {
    hide Cached, Accounted, Logged, AssessedOnce, Invalidated, Grounding, EventsFrom, FaultedRecord, Runnable;
    RunInvParts(l, r);
  }

  lemma AcknowledgeMeans(l: Loaded, r: RunRecord, req: Request)
    requires RunInv(l, r)
    ensures HandleAcknowledge(r, req).accepted <==> MayAcknowledge(r, req.alarm)
    ensures !HandleAcknowledge(r, req).accepted ==> HandleAcknowledge(r, req) == Reject(r, AcknowledgementUnavailable)
  {
    hide EventsFrom;
    AlarmsAreFew(l, r);
    AcknowledgeIff(r, req);
  }

  lemma IsolationIff(l: Loaded, def: Definition, r: RunRecord, req: Request)
    requires RunInv(l, r) && Runnable(l.data, r) && WellShaped(req) && req.kind == OperateIsolationDevice
    ensures HandleIsolation(l.data, def, r, req).accepted <==>
              req.state == Some(Open) && MayOpen(l.data, def, r, req.target.value, req.time)
    ensures !HandleIsolation(l.data, def, r, req).accepted ==>
              HandleIsolation(l.data, def, r, req) == Reject(r, IsolationActionUnavailable)
  {
    hide TargetAvailable, MayOpen, IsolatedRecord, EventsFrom, GateTopology;
    assert r.run.network != N0 ==> r.run.faultActive by { ActiveAfterFault(l, r); }
    if r.run.faultActive { TargetMeans(l.data, def, r, req.target.value, req.time); }
    else { NothingToOpen(l.data, def, r, req.target.value, req.time); }
  }

  lemma ActiveAfterFault(l: Loaded, r: RunRecord)
    requires RunInv(l, r)
    ensures r.run.faultActive <==> r.run.network != N0
  {
    hide Cached, Accounted, Logged, AssessedOnce, Invalidated, Grounding;
    RunInvParts(l, r);
  }

  lemma NothingToOpen(c: Network, def: Definition, r: RunRecord, d: Id, time: int)
    requires r.run.network != N1
    ensures !TargetAvailable(def, r.run, GateTopology(c, r, time), Some(d)) && !MayOpen(c, def, r, d, time)
  {
    hide GateTopology, ObservedAs, BoundarySet, Precedes;
  }

  /** The isolation gate of the later commands is the evidence on the boundary. */
  lemma IsolatedIff(l: Loaded, r: RunRecord, time: int)
    requires WellFormed(l.data) && RunInv(l, r) && r.run.network != N0
    ensures IsolatedIn(GateTopology(l.data, r, time)) <==> BoundaryProven(l.data, r.telemetry, r.run.fault, time)
  {
    hide WellFormed, RunInv, TopologyAt, ProvenOpenAt, BoundaryProven, IsolatedIn, Grounding, SectionIds;
    GroundingRun(l, r);
    FaultIsConfigured(l.data, r);
    ActiveAfterFault(l, r);
    IsolatedMeans(l.data, r.telemetry, r.run.sources, r.run.fault, time);
    BoundaryProvenMeans(l.data, r.telemetry, r.run.fault, time);
  }

  lemma SafeRecloseIff(l: Loaded, r: RunRecord, time: int)
    requires WellFormed(l.data) && RunInv(l, r) && r.run.network != N0 && Runnable(l.data, r)
    ensures RecloseAvailable(l.data, r, time) <==> SafeReclose(l.data, r, time)
  {
    hide WellFormed, RunInv, RecloseAvailable, ProvenOpenAt, BoundaryProven, RecloseGain, BoundarySet, Grounding;
    hide Runnable;
    GroundingRun(l, r);
    ActiveAfterFault(l, r);
    RecloseIff(l.data, r, time);
    BoundaryProvenMeans(l.data, r.telemetry, r.run.fault, time);
  }

  lemma RestoreIff(l: Loaded, r: RunRecord, req: Request)
    requires WellFormed(l.data) && RunInv(l, r) && Runnable(l.data, r)
    ensures HandleRestore(l.data, r, req).accepted <==> MayRestore(l.data, r, req)
    ensures !HandleRestore(l.data, r, req).accepted ==> HandleRestore(l.data, r, req) == Reject(r, RestoreUnavailable)
  {
    hide WellFormed, RunInv, RecloseAvailable, SafeReclose, BoundaryProven, IsolatedIn, GateTopology, RestoredRecord;
    hide EventsFrom, Runnable;
    RestoreBreakerOpen(l, r, req.time);
    if r.run.network == N2 {
      IsolatedIff(l, r, req.time);
      SafeRecloseIff(l, r, req.time);
    }
  }

  lemma AssessIff(l: Loaded, r: RunRecord, req: Request)
    requires WellFormed(l.data) && RunInv(l, r) && Runnable(l.data, r)
    ensures HandleAssess(l, r, req).accepted <==> MayAssess(l.data, r, req.time)
    ensures !HandleAssess(l, r, req).accepted ==> HandleAssess(l, r, req) == Reject(r, AssessmentUnavailable)
  {
    hide WellFormed, RunInv, RecloseAvailable, SafeReclose, BoundaryProven, IsolatedIn, GateTopology, AssessedRecord;
    hide EventsFrom, Runnable, WasInvalidated;
    if r.assessments != [] { InvalidatedMeans(r, r.assessments[|r.assessments|-1]); }
    if r.run.network == N2 {
      IsolatedIff(l, r, req.time);
      SafeRecloseIff(l, r, req.time);
    }
  }

  // ---------------------------------------------------------------- execution

  /** What permitted once permits again exactly while its evidence holds: nothing else involves time. */
  lemma PermittedAgainIff(l: Loaded, a: AssessmentInputs, b: AssessmentInputs)
    requires WellFormed(l.data) && Grounded(l.data, a) && Grounded(l.data, b)
    requires a.points == b.points && a.sources == b.sources && a.fault == b.fault
    requires Assess(l, a).outcome == Permitted
    ensures Assess(l, b).outcome == Permitted <==>
              BoundaryProven(l.data, b.points, b.fault, b.time) && MonitoredHold(l.data, b.points, b.time)
  {
    hide WellFormed, CandidateOf, PermissivesOf, CalculationOf, RequiredPoints, BoundaryProven, RadialNetwork, Live;
    hide TopologyOf, PickedUp, StructuralInputs, Feeds, LoadOf, SuppliedBy, Supply, InService, Grounded, SectionIds;
    var c := l.data;
    GroundedSameState(c, a, b);
    SameStateCandidate(l, a, b);
    PermittedParts(l, a);
    var k := CandidateOf(l, a).value;
    var fault, tie, f := CandidateHasShape(l, a);
    PickedUpSections(c, a, fault.feederId, TopologyOf(c, StructuralInputs(a, tie.id, f)), f.id);
    PermissivesAre(c, a, k, f);
    PermissivesAre(c, b, k, f);
    OutcomeFollows(c, a, k, f, PermissivesOf(c, a, k));
    OutcomeFollows(c, b, k, f, PermissivesOf(c, b, k));
    assert EvidenceHolds(c, b) <==> MonitoredHold(c, b.points, b.time);
  }

  lemma ExecutableMeans(l: Loaded, r: RunRecord, req: Request)
    requires RunInv(l, r)
    ensures NamesPermitted(r, req) <==>
              Executable(r) && req.assessment == Some(r.assessments[|r.assessments|-1].id)
  {
    hide WasInvalidated, Cached, Accounted, Logged, Grounding, Invalidated, Workflow, Assess, InputsFor, InvalidatedIds;
    RunInvParts(l, r);
    if r.run.network == N4 && r.assessments != [] {
      var a := r.assessments[|r.assessments|-1];
      InvalidatedMeans(r, a);
      assert Faithful(l, r, a);
      if a.outcome == Permitted { PermittedParts(l, InputsFor(l.data, r, a.time, a.id, a.sequence)); }
    }
  }

  lemma ProjectedIff(l: Loaded, r: RunRecord, time: int)
    requires WellFormed(l.data) && RunInv(l, r) && Executable(r)
    ensures Projection(l, r, time).outcome == Permitted <==> EvidenceStands(l.data, r, time)
  {
    hide WellFormed, Assess, Cached, Accounted, Logged, Invalidated, BoundaryProven, MonitoredHold, Grounded;
    hide TopologyAt;
    hide OutageOf, InvalidatedIds;
    RunInvParts(l, r);
    var a := r.assessments[|r.assessments|-1];
    assert Faithful(l, r, a);
    ProjectionGrounded(l, r, a.time, a.id, a.sequence);
    ProjectionGrounded(l, r, time, 0, 1);
    PermittedAgainIff(l, InputsFor(l.data, r, a.time, a.id, a.sequence), InputsFor(l.data, r, time, 0, 1));
  }

  lemma ExecuteMeans(l: Loaded, r: RunRecord, req: Request)
    requires WellFormed(l.data) && RunInv(l, r) && Runnable(l.data, r) && r.run.status != RunClosed
    ensures HandleExecute(l, r, req).accepted <==> NamesPermitted(r, req) && EvidenceStands(l.data, r, req.time)
    ensures !NamesPermitted(r, req) ==> HandleExecute(l, r, req) == Reject(r, ExecutionUnavailable)
    ensures NamesPermitted(r, req) && !EvidenceStands(l.data, r, req.time) ==>
              HandleExecute(l, r, req).reason == AssessmentNoLongerValid
  {
    hide WellFormed, RunInv, Projection, BindingMatches, NamesPermitted, EvidenceStands, ExecutedRecord, EventsFrom;
    hide InvalidatedRecord, Runnable, Executable;
    ExecutableMeans(l, r, req);
    if NamesPermitted(r, req) {
      ProjectedIff(l, r, req.time);
      BindingIffStillPermitted(l, r, req.time);
      if Projection(l, r, req.time).outcome == Permitted { ExecutionIsSafe(l, r, req.time); }
    }
  }

  // ---------------------------------------------------------------- every command

  /** Why the common guards refuse a request, the first that applies: another revision than the run's, a time
      before the run's, a closed run. */
  ghost predicate GuardRefuses(run: RunContext, req: Request, reason: Reason) {
    || (reason == StaleExpectedRevision && req.expectedRevision != run.revision)
    || (reason == ScenarioTimeBeforeCurrent && req.expectedRevision == run.revision && req.time < run.time)
    || (reason == RunIsClosed && req.expectedRevision == run.revision && req.time >= run.time
        && run.status == RunClosed)
  }

  /** Why a command that passes the guards is refused. */
  ghost predicate HandlerRefuses(c: Network, r: RunRecord, req: Request, reason: Reason)
  {
    match req.kind
    case InitiateFault => reason == if r.run.network != N0 then FaultInitiationUnavailable else AffectedBreakerNotClosed
    case AcknowledgeAlarm => reason == AcknowledgementUnavailable
    case OperateIsolationDevice => reason == IsolationActionUnavailable
    case RestoreNormalSource => reason == RestoreUnavailable
    case AssessRestoration => reason == AssessmentUnavailable
    case ExecuteRestoration => reason == if NamesPermitted(r, req)
      then AssessmentNoLongerValid else ExecutionUnavailable
    case ResetRun => false
  }

  predicate PassesGuards(run: RunContext, req: Request) {
    req.expectedRevision == run.revision && req.time >= run.time && run.status != RunClosed
  }

  lemma HandledIff(l: Loaded, def: Definition, r: RunRecord, req: Request)
    requires WellFormed(l.data) && RunInv(l, r) && Runnable(l.data, r) && WellShaped(req) && req.kind != ResetRun
    requires r.run.status != RunClosed
    ensures Handle(l, def, r, req).accepted <==> Acceptable(l.data, def, r, req)
    ensures !Handle(l, def, r, req).accepted ==> HandlerRefuses(l.data, r, req, Handle(l, def, r, req).reason)
    ensures !Handle(l, def, r, req).accepted && Handle(l, def, r, req).reason != AssessmentNoLongerValid ==>
              Handle(l, def, r, req) == Reject(r, Handle(l, def, r, req).reason)
  {
    hide WellFormed, RunInv, HandleFault, HandleAcknowledge, HandleIsolation, HandleRestore, HandleAssess;
    hide HandleExecute;
    hide MayAcknowledge, MayOpen, MayRestore, MayAssess, NamesPermitted, EvidenceStands, Runnable;
    match req.kind
    case InitiateFault => FaultMeans(l, def, r, req);
    case AcknowledgeAlarm => AcknowledgeMeans(l, r, req);
    case OperateIsolationDevice => IsolationIff(l, def, r, req);
    case RestoreNormalSource => RestoreIff(l, r, req);
    case AssessRestoration => AssessIff(l, r, req);
    case ExecuteRestoration => ExecuteMeans(l, r, req);
  }

  /** A command is accepted exactly when it names the run's revision, is not before the run's time, finds the
      run open, and the run satisfies what its kind requires. */
  lemma CommandAcceptedIff(l: Loaded, def: Definition, r: RunRecord, req: Request)
    requires WellFormed(l.data) && RunInv(l, r) && Runnable(l.data, r) && WellShaped(req)
    ensures StepOf(l, def, r, req).accepted <==> PassesGuards(r.run, req) && Acceptable(l.data, def, r, req)
  {
    hide WellFormed, RunInv, Runnable, Handle, Acceptable, HandlerRefuses, Close;
    if PassesGuards(r.run, req) && req.kind != ResetRun { HandledIff(l, def, r, req); }
    if req.kind == ResetRun { ResetIsAcceptable(l.data, def, r, req); }
  }

  lemma ResetIsAcceptable(c: Network, def: Definition, r: RunRecord, req: Request)
    requires Runnable(c, r) && WellShaped(req) && req.kind == ResetRun
    ensures Acceptable(c, def, r, req)
  {
    hide Runnable;
  }

  /** A refused command is told why, and leaves the record as it was; only the loss of an assessment's
      evidence writes anything. */
  lemma RefusedWhy(l: Loaded, def: Definition, r: RunRecord, req: Request)
    requires WellFormed(l.data) && RunInv(l, r) && Runnable(l.data, r) && WellShaped(req)
    requires !StepOf(l, def, r, req).accepted
    ensures var step := StepOf(l, def, r, req);
            && (if PassesGuards(r.run, req) then HandlerRefuses(l.data, r, req, step.reason)
                else GuardRefuses(r.run, req, step.reason))
            && (step.reason != AssessmentNoLongerValid ==>
                  step.record == r && step.newEvents == [] && step.newAssessments == [])
  {
    hide WellFormed, RunInv, Runnable, Handle, HandlerRefuses, Close;
    if PassesGuards(r.run, req) && req.kind != ResetRun { HandledIff(l, def, r, req); }
  }
}
