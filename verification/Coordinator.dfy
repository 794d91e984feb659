/** The scenario coordinator: one method per command over the tables, inside one transaction. */
module Coordinator {
  import opened Ids
  import opened Configuration
  import opened Topology
  import opened Telemetry
  import opened Outage
  import opened Restoration
  import opened Derivation
  import opened Scenario
  import opened Handlers
  import opened RunInvariant
  import opened RunSteps
  import opened Store
  import opened StoreFacts
  import opened Histories
  import opened UnitOfWork
  import opened CoordinatorFacts
  import TopologyService
  import RestorationService

  /** The points of a transaction at which an injected failure may be raised. */
  datatype Stage = AfterPrimaryMutation | BeforeCommit

  /** The points a command passes: a rejection writes its result only, but losing an assessment is a
      mutation of the run. */
  function StagesOf(accepted: bool, reason: Reason): set<Stage> {
    if accepted then {AfterPrimaryMutation, BeforeCommit}
    else if reason == AssessmentNoLongerValid then {AfterPrimaryMutation}
    else {}
  }

  /** The points a command passes when it is to answer with `reply`; a replay or a refusal passes none. */
  function CommandStages(s: Tables, commandId: nat, reply: Reply): set<Stage> {
    if commandId in s.results || reply.Refused? then {} else StagesOf(reply.result.accepted, reply.result.reason)
  }

  /** Starting a run passes one point, before it is committed. */
  function BeginStages(s: Tables, commandId: nat, reply: Reply): set<Stage> {
    if commandId in s.results || reply.Refused? then {} else {BeforeCommit}
  }

  class ScenarioCoordinator {
    const env: Environment
    const unit: ScenarioUnitOfWork
    const failures: set<Stage>

    constructor (env: Environment, unit: ScenarioUnitOfWork, failures: set<Stage>)
      ensures this.env == env && this.unit == unit && this.failures == failures
    {
      this.env, this.unit, this.failures := env, unit, failures;
    }

    ghost predicate Valid()
      reads this, unit
    {
      unit.Valid() && Ready(env, unit.Contents())
    }

    /** An injected failure is raised at one of these points. */
    predicate Fails(stages: set<Stage>) { exists stage | stage in stages :: stage in failures }

    /** The transaction failed at an injected point and answers nothing, exactly when the command passes
        one; otherwise the command was handled as `step` says. */
    ghost predicate Handled(before: Tables, after: Tables, l: Loaded, id: nat, req: Request, step: Step, reply: Reply)
      requires id in before.runs
    {
      if Fails(StagesOf(step.accepted, step.reason)) then reply == Refused(TransactionFailed)
      else Done(env, before, after, l, id, req, step, reply)
    }

    // -------------------------------------------------------------- shared steps

    method Derive(l: Loaded, run: RunContext, points: map<Id, Point>, previous: Option<OutageResult>)
        returns (t: TopologyResult, o: OutageResult, validity: map<Id, Validity>)
      requires Derivable(l.data, points, run)
      ensures t == TopologyAt(l.data, points, run.sources, ActiveFault(run), run.time)
              && o == OutageOf(l.data, t, previous)
      ensures validity == map d | d in points :: Classify(points[d], run.time)
    {
      hide ScenarioUnitOfWork.Contents, TopologyOf, OutageOf, WellFormed, Complete, SourceEdgesPresent;
      DerivableInputs(l.data, points, run);
      WellFormedFacts(l.data);
      var calculated := TopologyService.Calculate(l.data, InputsAt(points, run.sources, ActiveFault(run), run.time));
      t := calculated.result;
      o := OutageOf(l.data, t, previous);
      validity := map d | d in points :: Classify(points[d], run.time);
    }

    method AssembleSnapshot(id: nat, l: Loaded) returns (snapshot: Snapshot)
      requires unit.Valid() && id in unit.Contents().runs && RecordDerivable(l.data, unit.Contents().runs[id])
      ensures snapshot == SnapshotOf(l, env.def, unit.Contents().runs[id])
    {
      hide ScenarioUnitOfWork.Contents, TopologyAt, OutageOf, AllowedActions, Classify, WellFormed;
      var r := unit.Read(id);
      var t, _, validity := Derive(l, r.run, r.telemetry, None);
      snapshot := Snapshot(r.run, r.telemetry, validity, r.alarms,
                           t, r.outages[r.run.revision], r.events, r.assessments, r.invalidations,
                             AllowedActions(l, env.def, r));
    }

    /** Append events for the run as it now stands. */
    method RecordEvents(id: nat, command: nat, actor: string, specs: seq<EventSpec>)
      requires unit.Valid() && id in unit.Contents().runs
      modifies unit
      ensures unit.Valid() && Only(old(unit.Contents()), unit.Contents(), id)
      ensures unit.Contents().runs[id] == Record(old(unit.Contents()).runs[id], command, actor, specs)
    {
      hide ScenarioUnitOfWork.Contents, EventsFrom;
      var r := unit.Read(id);
      NextSequencesFree(r, r.run, command, actor, specs);
      unit.InsertEvents(id, EventsFrom(r.run, MaxSequence(r.events) + 1, command, actor, specs));
    }

    /** Derive and insert the snapshots of the run's current revision. */
    method StoreSnapshots(id: nat, l: Loaded, previous: Option<OutageResult>)
      requires unit.Valid() && id in unit.Contents().runs
               && Derivable(l.data, unit.Contents().runs[id].telemetry, unit.Contents().runs[id].run)
      requires unit.Contents().runs[id].run.revision !in unit.Contents().runs[id].topologies
      requires unit.Contents().runs[id].run.revision !in unit.Contents().runs[id].outages
      modifies unit
      ensures unit.Valid() && Only(old(unit.Contents()), unit.Contents(), id)
      ensures var r := old(unit.Contents()).runs[id];
              var t := TopologyAt(l.data, r.telemetry, r.run.sources, ActiveFault(r.run), r.run.time);
              unit.Contents().runs[id] == r.(topologies := r.topologies[r.run.revision := t],
                                             outages := r.outages[r.run.revision := OutageOf(l.data, t, previous)])
    {
      hide ScenarioUnitOfWork.Contents, TopologyAt, OutageOf, WellFormed, Derivable;
      var r := unit.Read(id);
      var t, o, _ := Derive(l, r.run, r.telemetry, previous);
      unit.InsertDerivedSnapshots(id, r.run.revision, t, o);
    }

    /** Record the events, assemble the snapshot, and store the accepted result. `before` is the store
        as the command found it. */
    method CompleteAccepted(ghost before: Tables, prior: RunContext, id: nat, l: Loaded, req: Request, reason: Reason,
                            specs: seq<EventSpec>, assessments: seq<nat>) returns (reply: Reply)
      requires unit.Valid() && id in unit.Contents().runs && Only(before, unit.Contents(), id) && id in before.runs
      requires before.runs[id].run == prior && prior.id == id && req.commandId !in unit.Contents().results
      requires RecordDerivable(l.data, unit.Contents().runs[id])
      modifies unit
      ensures unit.Valid()
      ensures if BeforeCommit in failures then reply == Refused(TransactionFailed)
              else Done(env, before, unit.Contents(), l, id, req,
                        Accept(old(unit.Contents()).runs[id], req, reason, specs, assessments), reply)
    {
      hide ScenarioUnitOfWork.Contents, SnapshotOf, EventsFrom, WellFormed, Done, Derivable;
      var r := unit.Read(id);
      var sequences := Sequences(r, specs);
      ghost var step := Accept(unit.Contents().runs[id], req, reason, specs, assessments);
      RecordedDerivable(l.data, unit.Contents().runs[id], req.commandId, req.actor, specs);
      RecordEvents(id, req.commandId, req.actor, specs);
      ghost var middle := unit.Contents();
      if BeforeCommit in failures { return Refused(TransactionFailed); }
      var snapshot := AssembleSnapshot(id, l);
      var s := unit.Read(id);
      var result := CommandResult(req.commandId, true, reason, prior.revision, s.run.revision, s.run.status,
                                  Named(id, sequences), assessments, snapshot);
      unit.InsertCommandResult(req.commandId, id, Commanding(req), result);
      reply := Answered(result);
      DoneByAccept(env, before, middle, unit.Contents(), l, id, req, step, reply);
    }

    /** Store the rejection of a command, with whatever it has already changed since `before`. */
    method RejectCommand(ghost before: Tables, id: nat, l: Loaded, req: Request, reason: Reason, newEvents: seq<int>)
        returns (reply: Reply)
      requires unit.Valid() && id in unit.Contents().runs && Only(before, unit.Contents(), id) && id in before.runs
      requires before.runs[id].run.id == id && before.runs[id].run.revision == unit.Contents().runs[id].run.revision
      requires req.commandId !in unit.Contents().results && RecordDerivable(l.data, unit.Contents().runs[id])
      modifies unit
      ensures unit.Valid()
      ensures Done(env, before, unit.Contents(), l, id, req,
                   Step(old(unit.Contents()).runs[id], false, reason, newEvents, []), reply)
    {
      hide ScenarioUnitOfWork.Contents, SnapshotOf, WellFormed, Done;
      ghost var step := Step(unit.Contents().runs[id], false, reason, newEvents, []);
      ghost var middle := unit.Contents();
      var snapshot := AssembleSnapshot(id, l);
      var s := unit.Read(id);
      var result := CommandResult(req.commandId, false, reason, s.run.revision, s.run.revision, s.run.status,
                                  Named(id, newEvents), [], snapshot);
      unit.InsertCommandResult(req.commandId, id, Commanding(req), result);
      reply := Answered(result);
      DoneByAccept(env, before, middle, unit.Contents(), l, id, req, step, reply);
    }

    // -------------------------------------------------------------- fault and alarm

    method TripBreaker(id: nat, l: Loaded, req: Request, b: Id) returns (raised: bool)
      requires unit.Valid() && id in unit.Contents().runs && RecordDerivable(l.data, unit.Contents().runs[id])
      requires var r := unit.Contents().runs[id];
               r.run.id == id && b == BreakerId(l.data, r) && r.alarms == [] && r.run.revision + 1 !in r.topologies
                 && r.run.revision + 1 !in r.outages
      modifies unit
      ensures unit.Valid() && (raised <==> AfterPrimaryMutation in failures)
      ensures !raised ==> Only(old(unit.Contents()), unit.Contents(), id)
                          && unit.Contents().runs[id] == FaultedRecord(l.data, old(unit.Contents()).runs[id], req)
    {
      hide ScenarioUnitOfWork.Contents, TopologyAt, OutageOf, WellFormed, AffectedFeeder, DeviceIds, SourceIds;
      hide SectionIds;
      var r := unit.Read(id);
      var run := r.run.(time := req.time, revision := r.run.revision + 1, stage := PostFault,
                        network := N1, status := Active, faultActive := true);
      unit.UpdateRun(run);
      unit.PutTelemetry(id, b, Point(Open, Good, req.time, run.revision));
      unit.InsertAlarm(id, Alarm(req.commandId, b, true, false, req.time, None, None));
      if AfterPrimaryMutation in failures { return true; }
      StoreSnapshots(id, l, Some(r.outages[r.run.revision]));
      raised := false;
    }

    method InitiateFault(id: nat, l: Loaded, req: Request) returns (reply: Reply)
      requires unit.Valid() && Serving(env, unit.Contents(), l, id, req)
      modifies unit
      ensures unit.Valid()
      ensures Handled(old(unit.Contents()), unit.Contents(), l, id, req,
                      HandleFault(l.data, old(unit.Contents()).runs[id], req), reply)
    {
      hide ScenarioUnitOfWork.Contents, TopologyAt, OutageOf, EventsFrom, WellFormed, RunInv, Ready, Done;
      hide FaultedRecord, Derivable, StoreInv;
      ghost var before := unit.Contents();
      var r := unit.Read(id);
      if r.run.network != N0 || r.run.faultActive {
        reply := RejectCommand(before, id, l, req, FaultInitiationUnavailable, []);
        return;
      }
      var b := BreakerId(l.data, r);
      if r.telemetry[b].value != Closed {
        reply := RejectCommand(before, id, l, req, AffectedBreakerNotClosed, []);
        return;
      }
      NextRevisionFree(l, r);
      FaultedDerivable(l.data, r, req);
      var raised := TripBreaker(id, l, req, b);
      if raised { return Refused(TransactionFailed); }
      reply := CompleteAccepted(before, r.run, id, l, req, FaultWasInitiated,
        [Spec(FaultInitiated, Some(r.run.fault)), Spec(TelemetryUpdated, Some(b)), Spec(DeviceStateChange, Some(b)),
         EventSpec(AlarmGenerated, Some(b), Some(req.commandId), None)] + DerivedSpecs(None), []);
    }

    method AcknowledgeAlarm(id: nat, l: Loaded, req: Request) returns (reply: Reply)
      requires unit.Valid() && Serving(env, unit.Contents(), l, id, req)
      modifies unit
      ensures unit.Valid()
      ensures Handled(old(unit.Contents()), unit.Contents(), l, id, req,
                      HandleAcknowledge(old(unit.Contents()).runs[id], req), reply)
    {
      hide ScenarioUnitOfWork.Contents, EventsFrom, WellFormed, RunInv, Ready, Done, Derivable, StoreInv, AlarmIndex;
      ghost var before := unit.Contents();
      var r := unit.Read(id);
      var k := AlarmIndex(r.alarms, req.alarm);
      if k == |r.alarms| || !Acknowledgeable(r.alarms[k]) {
        reply := RejectCommand(before, id, l, req, AcknowledgementUnavailable, []);
        return;
      }
      var alarm := r.alarms[k].(acknowledged := true, acknowledgedAt := Some(req.time),
                                acknowledgedBy := Some(req.actor));
      assert Some(alarm.id) == req.alarm;
      var run := r.run.(time := req.time);
      unit.UpdateAlarm(id, alarm);
      unit.UpdateRun(run);
      if AfterPrimaryMutation in failures { return Refused(TransactionFailed); }
      RunDerivable(l.data, r, unit.Contents().runs[id]);
      reply := CompleteAccepted(before, r.run, id, l, req, AlarmWasAcknowledged,
        [EventSpec(AlarmAcknowledged, Some(alarm.device), Some(alarm.id), None)], []);
    }

    // -------------------------------------------------------------- isolation

    /** Topology from the run's current telemetry at the requested time. */
    method GateTopologyAt(l: Loaded, r: RunRecord, time: int) returns (t: TopologyResult)
      requires RecordDerivable(l.data, r)
      ensures t == GateTopology(l.data, r, time)
    {
      hide TopologyAt, OutageOf, WellFormed;
      var gate, _, _ := Derive(l, r.run.(time := time), r.telemetry, None);
      t := gate;
    }

    method OpenBoundary(id: nat, l: Loaded, d: Id, time: int) returns (raised: bool)
      requires unit.Valid() && id in unit.Contents().runs && RecordDerivable(l.data, unit.Contents().runs[id])
      requires var r := unit.Contents().runs[id];
               r.run.id == id && d in r.telemetry && r.run.revision + 1 !in r.topologies
                 && r.run.revision + 1 !in r.outages
      modifies unit
      ensures unit.Valid() && (raised <==> AfterPrimaryMutation in failures)
      ensures !raised ==> Only(old(unit.Contents()), unit.Contents(), id)
                          && unit.Contents().runs[id] == IsolatedRecord(l.data, old(unit.Contents()).runs[id], d, time)
    {
      hide ScenarioUnitOfWork.Contents, TopologyAt, OutageOf, WellFormed, AffectedFeeder, DeviceIds, SourceIds;
      hide SectionIds;
      var r := unit.Read(id);
      var point := Point(Open, Good, time, r.run.revision + 1);
      var provisional := r.run.(time := time, revision := r.run.revision + 1, stage := Isolating, status := Active);
      unit.PutTelemetry(id, d, point);
      if AfterPrimaryMutation in failures { return true; }
      var t, o, _ := Derive(l, provisional, r.telemetry[d := point], Some(r.outages[r.run.revision]));
      var isolated := t.proof.Some? && t.proof.value.isolated;
      var run := provisional.(stage := if isolated then FaultIsolated
                                                        else Isolating, network := if isolated then N2 else N1);
      unit.UpdateRun(run);
      unit.InsertDerivedSnapshots(id, run.revision, t, o);
      raised := false;
    }

    method OperateIsolationDevice(id: nat, l: Loaded, req: Request) returns (reply: Reply)
      requires unit.Valid() && Serving(env, unit.Contents(), l, id, req) && req.kind == Scenario.OperateIsolationDevice
      modifies unit
      ensures unit.Valid()
      ensures Handled(old(unit.Contents()), unit.Contents(), l, id, req,
                      HandleIsolation(l.data, env.def, old(unit.Contents()).runs[id], req), reply)
    {
      hide ScenarioUnitOfWork.Contents, EventsFrom, WellFormed, RunInv, Ready, Done, StoreInv, GateTopology;
      hide TargetAvailable, IsolatedRecord, DeviceIds, SourceIds, SectionIds;
      ghost var before := unit.Contents();
      var r := unit.Read(id);
      var t := GateTopologyAt(l, r, req.time);
      if req.state != Some(Open) || !TargetAvailable(env.def, r.run, t, req.target) {
        reply := RejectCommand(before, id, l, req, IsolationActionUnavailable, []);
        return;
      }
      var d := req.target.value;
      IsolationFacts(l, env.def, r, req.time, req.target);
      NextRevisionFree(l, r);
      IsolatedDerivable(l.data, r, d, req.time);
      var raised := OpenBoundary(id, l, d, req.time);
      if raised { return Refused(TransactionFailed); }
      var after := unit.Read(id);
      reply := CompleteAccepted(before, r.run, id, l, req,
                                if after.run.network == N2 then FaultWasIsolated else IsolationAccepted,
        SwitchingSpecs(d, None), []);
    }

    // -------------------------------------------------------------- normal source and restoration

    /** Write the run and the switched point, then derive and insert the new revision's snapshots. */
    method SwitchAndDerive(id: nat, l: Loaded, run: RunContext, d: Id, value: SwitchState) returns (raised: bool)
      requires unit.Valid() && id in unit.Contents().runs && RecordDerivable(l.data, unit.Contents().runs[id])
      requires var r := unit.Contents().runs[id];
               r.run.id == id && run.id == id && d in r.telemetry && run.revision == r.run.revision + 1
               && run.sources == r.run.sources && run.fault == r.run.fault && run.revision !in r.topologies
                  && run.revision !in r.outages
      modifies unit
      ensures unit.Valid() && (raised <==> AfterPrimaryMutation in failures)
      ensures var r := old(unit.Contents()).runs[id];
              !raised ==> Only(old(unit.Contents()), unit.Contents(), id)
                          && unit.Contents().runs[id] == Advance(l.data, r, run,
                             Refresh(r.telemetry, d, value, run.time, run.revision))
    {
      hide ScenarioUnitOfWork.Contents, TopologyAt, OutageOf, WellFormed, AffectedFeeder, DeviceIds, SourceIds;
      hide SectionIds;
      var r := unit.Read(id);
      unit.UpdateRun(run);
      unit.PutTelemetry(id, d, Point(value, Good, run.time, run.revision));
      if AfterPrimaryMutation in failures { return true; }
      StoreSnapshots(id, l, Some(r.outages[r.run.revision]));
      raised := false;
    }

    method RestoreNormalSource(id: nat, l: Loaded, req: Request) returns (reply: Reply)
      requires unit.Valid() && Serving(env, unit.Contents(), l, id, req)
      modifies unit
      ensures unit.Valid()
      ensures Handled(old(unit.Contents()), unit.Contents(), l, id, req,
                      HandleRestore(l.data, old(unit.Contents()).runs[id], req), reply)
    {
      hide ScenarioUnitOfWork.Contents, EventsFrom, WellFormed, RunInv, Ready, Done, StoreInv, GateTopology;
      hide RecloseAvailable, IsolatedIn, Advance, DeviceIds, SourceIds, SectionIds, AffectedFeeder;
      ghost var before := unit.Contents();
      var r := unit.Read(id);
      var t := GateTopologyAt(l, r, req.time);
      var b := BreakerId(l.data, r);
      if !(r.run.network == N2 && IsolatedIn(t) && req.target == Some(b) && req.state == Some(Closed)
           && (r.run.mode == Formal || RecloseAvailable(l.data, r, req.time))) {
        reply := RejectCommand(before, id, l, req, RestoreUnavailable, []);
        return;
      }
      if r.telemetry[b].value != Open {
        reply := RejectCommand(before, id, l, req, SourceBreakerNotOpen, []);
        return;
      }
      NextRevisionFree(l, r);
      var run := r.run.(time := req.time, revision := r.run.revision + 1, stage := UpstreamRestored, network := N3,
                        status := Active);
      AdvancedDerivable(l.data, r, run, b, Point(Closed, Good, req.time, run.revision));
      var raised := SwitchAndDerive(id, l, run, b, Closed);
      if raised { return Refused(TransactionFailed); }
      reply := CompleteAccepted(before, r.run, id, l, req, SourceRestored, SwitchingSpecs(b, None), []);
    }

    method AssessRestoration(id: nat, l: Loaded, req: Request) returns (reply: Reply)
      requires unit.Valid() && Serving(env, unit.Contents(), l, id, req)
      modifies unit
      ensures unit.Valid()
      ensures Handled(old(unit.Contents()), unit.Contents(), l, id, req,
                      HandleAssess(l, old(unit.Contents()).runs[id], req), reply)
    {
      hide ScenarioUnitOfWork.Contents, EventsFrom, WellFormed, RunInv, Ready, Done, StoreInv, GateTopology;
      hide RecloseAvailable, IsolatedIn, DeviceIds, SourceIds, SectionIds, AffectedFeeder, AssessedRecord;
      hide LastInvalidated;
      ghost var before := unit.Contents();
      var r := unit.Read(id);
      var reassess := LastInvalidated(r);
      var t := GateTopologyAt(l, r, req.time);
      var withoutReclose := r.run.mode == Exploration && r.run.network == N2 && IsolatedIn(t)
        && !RecloseAvailable(l.data, r, req.time);
      if !(r.run.network == N3 || withoutReclose || (r.run.network == N4 && reassess)) {
        reply := RejectCommand(before, id, l, req, AssessmentUnavailable, []);
        return;
      }
      AssessedDerivable(l, r, req.time, req.commandId);
      var a, raised := MakeAssessment(id, l, req, t);
      if raised { return Refused(TransactionFailed); }
      reply := CompleteAccepted(before, r.run, id, l, req, AssessmentRecorded(a.outcome),
        [EventSpec(if a.candidate.Some? then CandidateIdentified else CandidateAbsent, TieOf(a), None, Some(a.id)),
         EventSpec(Assessed, TieOf(a), None, Some(a.id))], [a.id]);
    }

    /** Assess the run on the topology `t` of its current telemetry, move it to N4 and insert the result. */
    method MakeAssessment(id: nat, l: Loaded, req: Request, t: TopologyResult) returns (a: Assessment, raised: bool)
      requires unit.Valid() && id in unit.Contents().runs && RecordDerivable(l.data, unit.Contents().runs[id])
      requires unit.Contents().runs[id].run.id == id && FreshAssessment(unit.Contents().runs[id], req.commandId)
      requires t == GateTopology(l.data, unit.Contents().runs[id], req.time)
      modifies unit
      ensures unit.Valid() && (raised <==> AfterPrimaryMutation in failures)
      ensures var after := AssessedRecord(l, old(unit.Contents()).runs[id], req.time, req.commandId);
              !raised ==> Only(old(unit.Contents()), unit.Contents(), id) && unit.Contents().runs[id] == after
                          && a == after.assessments[|after.assessments|-1]
    {
      hide ScenarioUnitOfWork.Contents, WellFormed, GateTopology, DeviceIds, SourceIds, SectionIds, AffectedFeeder;
      hide Assess, OutageOf;
      var r := unit.Read(id);
      var inputs := AssessmentInputs(req.commandId, MaxAssessmentSequence(r.assessments) + 1, r.run.id,
                                     r.run.revision, req.time,
                                     r.run.fault, r.telemetry, r.run.sources, t, OutageOf(l.data, t, None));
      a := RestorationService.AssessCandidate(l, inputs);
      AssessNames(l, inputs);
      MaxAssessmentIsMax(r.assessments);
      unit.UpdateRun(r.run.(time := req.time, stage := RestorationAssessed, network := N4));
      unit.InsertAssessment(id, a);
      raised := AfterPrimaryMutation in failures;
    }

    /** The assessment the run would get at the requested time. */
    method ProjectAssessment(l: Loaded, r: RunRecord, time: int) returns (p: Assessment)
      requires RecordDerivable(l.data, r)
      ensures p == Projection(l, r, time)
    {
      hide GateTopology, WellFormed, Assess, OutageOf, DeviceIds, SourceIds, SectionIds;
      var t := GateTopologyAt(l, r, time);
      p := RestorationService.AssessCandidate(l, AssessmentInputs(0, 1, r.run.id, r.run.revision, time, r.run.fault,
        r.telemetry, r.run.sources,
                                                                  t, OutageOf(l.data, t, None)));
    }

    /** Record that the current assessment no longer holds: time moves on, one event, one invalidation. */
    method InvalidateCurrent(id: nat, l: Loaded, req: Request) returns (raised: bool)
      requires unit.Valid() && id in unit.Contents().runs && unit.Contents().runs[id].run.id == id
               && Executable(unit.Contents().runs[id])
      modifies unit
      ensures unit.Valid() && (raised <==> AfterPrimaryMutation in failures)
      ensures !raised ==> Only(old(unit.Contents()), unit.Contents(), id)
                          && unit.Contents().runs[id] == InvalidatedRecord(old(unit.Contents()).runs[id], req)
    {
      hide ScenarioUnitOfWork.Contents, EventsFrom, InvalidatedIds;
      var r := unit.Read(id);
      var a := r.assessments[|r.assessments|-1];
      unit.UpdateRun(r.run.(time := req.time));
      RecordEvents(id, req.commandId, req.actor,
                   [EventSpec(AssessmentInvalidated, Some(CurrentTie(r)), None, Some(a.id))]);
      NotYetInvalidated(r, a.id);
      unit.InsertInvalidation(id, Invalidation(a.id, r.run.revision, req.time, EvidenceNoLongerCurrent,
                                               MaxSequence(r.events) + 1));
      raised := AfterPrimaryMutation in failures;
    }

    /** The current assessment no longer holds: invalidate it and reject. */
    method LoseAssessment(id: nat, l: Loaded, req: Request) returns (reply: Reply)
      requires unit.Valid() && Serving(env, unit.Contents(), l, id, req) && Executable(unit.Contents().runs[id])
      modifies unit
      ensures unit.Valid()
      ensures var r := old(unit.Contents()).runs[id];
              Handled(old(unit.Contents()), unit.Contents(), l, id, req,
                      Step(InvalidatedRecord(r, req), false, AssessmentNoLongerValid, [MaxSequence(r.events) + 1],
                           []), reply)
    {
      hide ScenarioUnitOfWork.Contents, EventsFrom, WellFormed, RunInv, Ready, Done, StoreInv, Derivable, Executable;
      hide InvalidatedRecord;
      ghost var before := unit.Contents();
      var r := unit.Read(id);
      InvalidatedDerivable(l.data, r, req);
      var failed := InvalidateCurrent(id, l, req);
      if failed { return Refused(TransactionFailed); }
      reply := RejectCommand(before, id, l, req, AssessmentNoLongerValid, [MaxSequence(r.events) + 1]);
    }

    /** Close the tie of the current assessment. */
    method CloseTie(id: nat, l: Loaded, req: Request) returns (reply: Reply)
      requires unit.Valid() && Serving(env, unit.Contents(), l, id, req) && Executable(unit.Contents().runs[id])
      requires CurrentTie(unit.Contents().runs[id]) in unit.Contents().runs[id].telemetry
      modifies unit
      ensures unit.Valid()
      ensures var r := old(unit.Contents()).runs[id];
              Handled(old(unit.Contents()), unit.Contents(), l, id, req,
                      Accept(ExecutedRecord(l.data, r, req.time), req, RestorationDone,
                             SwitchingSpecs(CurrentTie(r), Some(r.assessments[|r.assessments|-1].id)), []), reply)
    {
      hide ScenarioUnitOfWork.Contents, EventsFrom, WellFormed, RunInv, Ready, Done, StoreInv, Advance, DeviceIds;
      hide SourceIds;
      hide SectionIds, AffectedFeeder, InvalidatedIds, Record;
      ghost var before := unit.Contents();
      var r := unit.Read(id);
      var a, tie := r.assessments[|r.assessments|-1], CurrentTie(r);
      NextRevisionFree(l, r);
      var run := r.run.(time := req.time, revision := r.run.revision + 1, stage := RestorationExecuted, network := N5,
                        status := RunComplete);
      AdvancedDerivable(l.data, r, run, tie, Point(Closed, Good, req.time, run.revision));
      var raised := SwitchAndDerive(id, l, run, tie, Closed);
      if raised { return Refused(TransactionFailed); }
      reply := CompleteAccepted(before, r.run, id, l, req, RestorationDone, SwitchingSpecs(tie, Some(a.id)), []);
    }

    method ExecuteRestoration(id: nat, l: Loaded, req: Request) returns (reply: Reply)
      requires unit.Valid() && Serving(env, unit.Contents(), l, id, req)
      modifies unit
      ensures unit.Valid()
      ensures Handled(old(unit.Contents()), unit.Contents(), l, id, req,
                      HandleExecute(l, old(unit.Contents()).runs[id], req), reply)
    {
      hide ScenarioUnitOfWork.Contents, EventsFrom, WellFormed, RunInv, Ready, Done, StoreInv, Projection, DeviceIds;
      hide SourceIds;
      hide SectionIds, AffectedFeeder, BindingMatches, InvalidatedRecord, ExecutedRecord, Record;
      ghost var before := unit.Contents();
      var r := unit.Read(id);
      if !Executable(r) || req.assessment != Some(r.assessments[|r.assessments|-1].id) {
        reply := RejectCommand(before, id, l, req, ExecutionUnavailable, []);
        return;
      }
      var a := r.assessments[|r.assessments|-1];
      var p := ProjectAssessment(l, r, req.time);
      if !BindingMatches(a, p) {
        reply := LoseAssessment(id, l, req);
        return;
      }
      var tie := CurrentTie(r);
      if tie !in r.telemetry || r.telemetry[tie].value != Open {
        reply := RejectCommand(before, id, l, req, TieNotOpen, []);
        return;
      }
      reply := CloseTie(id, l, req);
    }

    // -------------------------------------------------------------- closing and starting runs

    method CloseAndPreserve(id: nat, commandId: nat, actor: string, time: int) returns (sequences: seq<int>)
      requires unit.Valid() && id in unit.Contents().runs && unit.Contents().runs[id].run.id == id
      modifies unit
      ensures unit.Valid() && Only(old(unit.Contents()), unit.Contents(), id)
      ensures unit.Contents().runs[id] == Close(old(unit.Contents()).runs[id], commandId, actor, time)
      ensures sequences == Sequences(old(unit.Contents()).runs[id], CloseSpecs(old(unit.Contents()).runs[id]))
    {
      hide ScenarioUnitOfWork.Contents, EventsFrom, InvalidatedIds, CloseSpecs;
      var r := unit.Read(id);
      unit.UpdateRun(r.run.(time := time, status := RunClosed));
      var last := LastToInvalidate(r);
      sequences := Sequences(r, CloseSpecs(r));
      RecordEvents(id, commandId, actor, CloseSpecs(r));
      if last.Some? {
        NotYetInvalidated(r, last.value.id);
        unit.InsertInvalidation(id, Invalidation(last.value.id, r.run.revision, time, ByReset,
                                                 MaxSequence(r.events) + 1));
      }
    }

    method PutNormalTelemetry(id: nat, l: Loaded, time: int)
      requires unit.Valid() && id in unit.Contents().runs && unit.Contents().runs[id].telemetry == map[]
               && Validated(l.data)
      modifies unit
      ensures unit.Valid() && Only(old(unit.Contents()), unit.Contents(), id)
      ensures unit.Contents().runs[id] == old(unit.Contents()).runs[id].(telemetry := NormalPoints(l.data, time))
    {
      hide ScenarioUnitOfWork.Contents, Validated, DeviceLeq, Sort, NormalPoints;
      var devices := Sort(l.data.devices, DeviceLeq);
      SortElements(l.data.devices, DeviceLeq);
      for i := 0 to |devices|
        invariant unit.Valid() && Only(old(unit.Contents()), unit.Contents(), id)
        invariant unit.Contents().runs[id] == old(unit.Contents()).runs[id].(telemetry := PointsOf(devices[..i], time))
      {
        assert devices[..i + 1][..i] == devices[..i];
        unit.PutTelemetry(id, devices[i].id, Point(devices[i].normalState, Good, time, 0));
      }
      assert devices[..|devices|] == devices;
      NormalFrom(l.data, devices, time);
    }

    /** Insert a fresh run with its telemetry, snapshots and initial events. */
    method InsertNewRun(l: Loaded, id: nat, mode: Mode, fault: Id, time: int, buildId: string, actor: string)
      requires unit.Valid() && id !in unit.Contents().runs && NoneMutable(unit.Contents().runs)
      requires WellFormed(l.data) && fault in SectionIds(l.data)
      modifies unit
      ensures unit.Valid() && unit.Contents() == InsertRun(old(unit.Contents()),
                                                           NewRecord(l, id, mode, fault, time, buildId, actor))
    {
      hide ScenarioUnitOfWork.Contents, TopologyAt, OutageOf, EventsFrom, WellFormed, Validated, NormalPoints;
      hide NormalSources, SectionIds, DeviceIds, SourceIds;
      WellFormedFacts(l.data);
      var run := RunContext(id, mode, l.configurationId, l.version, fault, time, time, 0, Normal, N0, buildId,
                            Initialised, false, NormalSources(l.data));
      unit.InsertRun(run);
      ghost var started := unit.Contents();
      PutNormalTelemetry(id, l, time);
      NormalShape(l.data, time);
      StoreSnapshots(id, l, None);
      RecordEvents(id, id, actor, INITIAL_SPECS);
      OnlyMeans(started, unit.Contents(), id);
      StartedIs(old(unit.Contents()), started, unit.Contents(), id, Bare(run));
    }

    /** Start a run under the identifier of the command that asks for it, and store the result. */
    method StartRun(l: Loaded, id: nat, mode: Mode, fault: Id, time: int, buildId: string, actor: string,
                    owner: nat, content: Content, reason: Reason, prior: nat, earlier: seq<(nat, int)>)
                      returns (reply: Reply)
      requires unit.Valid() && id !in unit.Contents().runs && NoneMutable(unit.Contents().runs)
               && id !in unit.Contents().results
      requires WellFormed(l.data) && fault in SectionIds(l.data)
      modifies unit
      ensures unit.Valid()
      ensures if BeforeCommit in failures then reply == Refused(TransactionFailed)
              else (unit.Contents(), reply) == Start(env, old(unit.Contents()), l,
                                                     NewRun(l, id, mode, fault, time, buildId, actor), owner, content,
                                                     reason, prior, earlier)
    {
      hide ScenarioUnitOfWork.Contents, SnapshotOf, NewRecord, WellFormed, SectionIds;
      InsertNewRun(l, id, mode, fault, time, buildId, actor);
      if BeforeCommit in failures { return Refused(TransactionFailed); }
      NewIsDerivable(l, id, mode, fault, time, buildId, actor);
      var snapshot := AssembleSnapshot(id, l);
      var r := unit.Read(id);
      var result := CommandResult(id, true, reason, prior, 0, r.run.status, earlier + Named(id, InitialSequences()),
                                  [], snapshot);
      unit.InsertCommandResult(id, owner, content, result);
      reply := Answered(result);
    }

    method ResetRun(id: nat, l: Loaded, req: Request) returns (reply: Reply)
      requires unit.Valid() && Serving(env, unit.Contents(), l, id, req)
      modifies unit
      ensures unit.Valid()
      ensures var r := old(unit.Contents()).runs[id];
              var closed := old(unit.Contents()).(runs := old(unit.Contents()).runs[id := Close(r, req.commandId,
                req.actor, req.time)]);
              if Fails(StagesOf(true, RunWasReset)) then reply == Refused(TransactionFailed)
              else (unit.Contents(), reply) == Start(env, closed, l,
                     NewRun(l, req.commandId, r.run.mode, r.run.fault, r.run.initialTime, r.run.buildId, req.actor),
                     id, Commanding(req), RunWasReset, r.run.revision, Named(id, Sequences(r, CloseSpecs(r))))
    {
      hide ScenarioUnitOfWork.Contents, Close, WellFormed, RunInv, Start, NewRun, Ready;
      ghost var before := unit.Contents();
      var r := unit.Read(id);
      var sequences := CloseAndPreserve(id, req.commandId, req.actor, req.time);
      if AfterPrimaryMutation in failures { return Refused(TransactionFailed); }
      OnlyMeans(before, unit.Contents(), id);
      ClosingLeavesNone(env, before, id, req.commandId, req.actor, req.time);
      reply := StartRun(l, req.commandId, r.run.mode, r.run.fault, r.run.initialTime, r.run.buildId, req.actor,
                        id, Commanding(req), RunWasReset, r.run.revision, Named(id, sequences));
    }

    // -------------------------------------------------------------- requests

    /** Handle a fresh command for a stored run. */
    method Serve(runId: nat, l: Loaded, req: Request) returns (reply: Reply)
      requires Valid() && WellShaped(req) && req.runId == runId && runId in unit.Contents().runs
      requires req.commandId !in unit.Contents().results
      requires unit.Contents().runs[runId].run.version in env.catalog
               && l == LoadedFor(env, unit.Contents().runs[runId])
      requires RecordDerivable(l.data, unit.Contents().runs[runId]) && unit.Contents().runs[runId].run.id == runId
      requires RunInv(l, unit.Contents().runs[runId]) && FreshAssessment(unit.Contents().runs[runId], req.commandId)
      modifies unit
      ensures unit.Valid()
      ensures var step := StepOf(l, env.def, old(unit.Contents()).runs[runId], req);
              if Fails(StagesOf(step.accepted, step.reason)) then reply == Refused(TransactionFailed)
              else (unit.Contents(), reply) == Store.Execute(env, old(unit.Contents()), runId, req)
    {
      hide ScenarioUnitOfWork.Contents, RunInv, WellFormed, StoreInv, StepOf, Start, NewRun, DeviceIds, SourceIds;
      hide SectionIds, Handle;
      hide Close, Done, EnvironmentOk, Serviceable, Runnable, FreshAssessment, Store.Execute, StagesOf;
      ghost var before := unit.Contents();
      var r := unit.Read(runId);
      var guard := GuardReason(r, req);
      StepCases(l, env.def, r, req);
      RejectedPassNothing();
      if guard.Some? {
        reply := RejectCommand(before, runId, l, req, guard.value, []);
      } else if req.kind == CommandType.ResetRun {
        reply := ResetRun(runId, l, req);
      } else {
        reply := HandleCommand(runId, l, req);
      }
      ghost var step := StepOf(l, env.def, r, req);
      if !Fails(StagesOf(step.accepted, step.reason)) { ExecuteIs(env, before, l, r, req, unit.Contents(), reply); }
    }

    lemma RejectedPassNothing()
      ensures forall reason | reason != AssessmentNoLongerValid :: StagesOf(false, reason) == {}
    {
    }

    /** The body of a command's transaction. */
    method Dispatch(runId: nat, req: Request) returns (reply: Reply)
      requires Valid() && WellShaped(req)
      modifies unit
      ensures unit.Valid()
      ensures var (after, answer) := Store.Execute(env, old(unit.Contents()), runId, req);
              if Fails(CommandStages(old(unit.Contents()), req.commandId, answer))
                then reply == Refused(TransactionFailed)
              else unit.Contents() == after && reply == answer
    {
      hide ScenarioUnitOfWork.Contents, RunInv, WellFormed, StoreInv, StepOf, Start, NewRun, Close, EnvironmentOk;
      hide Serviceable;
      hide RecordDerivable, FreshAssessment, ResultOf, Runnable;
      if req.runId != runId { return Refused(IdentityMismatch); }
      var stored := unit.GetCommandResult(req.commandId);
      if stored.Some? {
        return if stored.value.content != Commanding(req) then Refused(CommandReused)
                                                               else Answered(stored.value.result);
      }
      var found := unit.HasRun(runId);
      if !found { return Refused(RunNotFound); }
      ghost var before := unit.Contents();
      Addressed(env, before, runId, req);
      AnswerIs(env, before, runId, req);
      var r := unit.Read(runId);
      reply := Serve(runId, env.catalog[r.run.version], req);
    }

    method HandleCommand(id: nat, l: Loaded, req: Request) returns (reply: Reply)
      requires unit.Valid() && Serving(env, unit.Contents(), l, id, req) && req.kind != CommandType.ResetRun
      modifies unit
      ensures unit.Valid()
      ensures Handled(old(unit.Contents()), unit.Contents(), l, id, req,
                      Handle(l, env.def, old(unit.Contents()).runs[id], req), reply)
    {
      hide ScenarioUnitOfWork.Contents, Done, Ready, RunInv, RecordDerivable, HandleFault, HandleAcknowledge;
      hide HandleIsolation, HandleRestore, HandleAssess, HandleExecute;
      match req.kind {
        case InitiateFault => reply := InitiateFault(id, l, req);
        case AcknowledgeAlarm => reply := AcknowledgeAlarm(id, l, req);
        case OperateIsolationDevice => reply := OperateIsolationDevice(id, l, req);
        case RestoreNormalSource => reply := RestoreNormalSource(id, l, req);
        case AssessRestoration => reply := AssessRestoration(id, l, req);
        case ExecuteRestoration => reply := ExecuteRestoration(id, l, req);
      }
    }

    /** One command in one transaction: it does exactly what the specification says, or an injected
        failure was raised and every table is as it was before. */
    method Execute(runId: nat, req: Request) returns (reply: Reply)
      requires Valid() && WellShaped(req)
      modifies unit
      ensures Valid()
      ensures var (after, answer) := Store.Execute(env, old(unit.Contents()), runId, req);
              if Fails(CommandStages(old(unit.Contents()), req.commandId, answer))
              then reply == Refused(TransactionFailed) && unit.Contents() == old(unit.Contents())
              else unit.Contents() == after && reply == answer
    {
      hide Store.Execute, Ready;
      ghost var before := unit.Contents();
      var rows := unit.Save();
      reply := Dispatch(runId, req);
      if reply.Refused? {
        unit.Rollback(rows);
        assert unit.Contents() == before;
      }
      CommandKeepsReady(env, before, runId, req);
    }

    method InitialiseBody(req: InitialiseRequest) returns (reply: Reply)
      requires Valid()
      modifies unit
      ensures unit.Valid()
      ensures var (after, answer) := Store.Initialise(env, old(unit.Contents()), req);
              if Fails(BeginStages(old(unit.Contents()), req.commandId, answer))
                then reply == Refused(TransactionFailed)
              else unit.Contents() == after && reply == answer
    {
      hide ScenarioUnitOfWork.Contents, WellFormed, StoreInv, Start, NewRun, SelectedFault, Serviceable;
      var stored := unit.GetCommandResult(req.commandId);
      if stored.Some? {
        return if stored.value.content != Initialising(req) then Refused(CommandReused)
                                                                 else Answered(stored.value.result);
      }
      var current := unit.GetMutableRun();
      if current.Some? { return Refused(MutableRunExists); }
      var chosen := Chosen(env, req);
      if chosen.Failure? { return Refused(chosen.error); }
      var (l, fault) := chosen.value;
      NobodyMutable(env, unit.Contents(), req.commandId);
      StartShape(env, unit.Contents(), l, NewRun(l, req.commandId, req.mode, fault, req.time, env.buildId, req.actor),
                 req.commandId, Initialising(req), RunInitialised, 0, []);
      reply := StartRun(l, req.commandId, req.mode, fault, req.time, env.buildId, req.actor,
                        req.commandId, Initialising(req), RunInitialised, 0, []);
    }

    /** Close the open run at its own time and start the requested one. */
    method ReplaceRun(id: nat, l: Loaded, fault: Id, req: InitialiseRequest) returns (reply: Reply)
      requires Valid() && id in unit.Contents().runs && Mutable(unit.Contents().runs[id])
               && unit.Contents().runs[id].run.id == id
      requires req.commandId !in unit.Contents().results && WellFormed(l.data) && fault in SectionIds(l.data)
      modifies unit
      ensures unit.Valid()
      ensures var p := old(unit.Contents()).runs[id];
              if BeforeCommit in failures then reply == Refused(TransactionFailed)
              else (unit.Contents(), reply)
                   == Start(env, CloseRun(old(unit.Contents()), p, req.commandId, req.actor), l,
                            NewRun(l, req.commandId, req.mode, fault, req.time, env.buildId, req.actor), p.run.id,
                            Initialising(req), LinkedRunInitialised, p.run.revision,
                              Named(p.run.id, Sequences(p, CloseSpecs(p))))
    {
      hide ScenarioUnitOfWork.Contents, WellFormed, StoreInv, Start, NewRun, Serviceable, EnvironmentOk, Close;
      hide CloseSpecs, SectionIds;
      ghost var before := unit.Contents();
      var p := unit.Read(id);
      ClosingLeavesNone(env, before, id, req.commandId, req.actor, p.run.time);
      var sequences := CloseAndPreserve(id, req.commandId, req.actor, p.run.time);
      OnlyMeans(before, unit.Contents(), id);
      reply := StartRun(l, req.commandId, req.mode, fault, req.time, env.buildId, req.actor,
                        p.run.id, Initialising(req), LinkedRunInitialised, p.run.revision, Named(p.run.id, sequences));
    }

    method ReplacementBody(req: InitialiseRequest) returns (reply: Reply)
      requires Valid()
      modifies unit
      ensures unit.Valid()
      ensures var (after, answer) := Store.InitialiseReplacement(env, old(unit.Contents()), req);
              if Fails(BeginStages(old(unit.Contents()), req.commandId, answer))
                then reply == Refused(TransactionFailed)
              else unit.Contents() == after && reply == answer
    {
      hide ScenarioUnitOfWork.Contents, WellFormed, StoreInv, Start, NewRun, SelectedFault, Serviceable, CloseRun;
      hide CloseSpecs;
      var stored := unit.GetCommandResult(req.commandId);
      if stored.Some? {
        return if stored.value.content != Initialising(req) then Refused(CommandReused)
                                                                 else Answered(stored.value.result);
      }
      var current := unit.GetMutableRun();
      if current.None? { return Refused(NoMutableRun); }
      var chosen := Chosen(env, req);
      if chosen.Failure? { return Refused(chosen.error); }
      var (l, fault) := chosen.value;
      ghost var before := unit.Contents();
      RunsStand(env, before, current.value);
      var p := unit.Read(current.value);
      if p.run.buildId != env.buildId { return Refused(DifferentBuild); }
      StartShape(env, CloseRun(before, p, req.commandId, req.actor), l,
                 NewRun(l, req.commandId, req.mode, fault, req.time, env.buildId, req.actor),
                 p.run.id, Initialising(req), LinkedRunInitialised, p.run.revision,
                   Named(p.run.id, Sequences(p, CloseSpecs(p))));
      reply := ReplaceRun(current.value, l, fault, req);
    }

    method Initialise(req: InitialiseRequest) returns (reply: Reply)
      requires Valid()
      modifies unit
      ensures Valid()
      ensures var (after, answer) := Store.Initialise(env, old(unit.Contents()), req);
              if Fails(BeginStages(old(unit.Contents()), req.commandId, answer))
              then reply == Refused(TransactionFailed) && unit.Contents() == old(unit.Contents())
              else unit.Contents() == after && reply == answer
    {
      hide Store.Initialise, Ready;
      ghost var before := unit.Contents();
      var rows := unit.Save();
      reply := InitialiseBody(req);
      if reply.Refused? {
        unit.Rollback(rows);
        assert unit.Contents() == before;
      }
      BeginKeepsReady(env, before, req);
    }

    method InitialiseReplacementRun(req: InitialiseRequest) returns (reply: Reply)
      requires Valid()
      modifies unit
      ensures Valid()
      ensures var (after, answer) := Store.InitialiseReplacement(env, old(unit.Contents()), req);
              if Fails(BeginStages(old(unit.Contents()), req.commandId, answer))
              then reply == Refused(TransactionFailed) && unit.Contents() == old(unit.Contents())
              else unit.Contents() == after && reply == answer
    {
      hide Store.InitialiseReplacement, Ready;
      ghost var before := unit.Contents();
      var rows := unit.Save();
      reply := ReplacementBody(req);
      if reply.Refused? {
        unit.Rollback(rows);
        assert unit.Contents() == before;
      }
      BeginKeepsReady(env, before, req);
    }

    /** Keep any current run's history, then start the requested run. */
    method InitialiseNextRun(req: InitialiseRequest) returns (reply: Reply)
      requires Valid()
      modifies unit
      ensures Valid()
      ensures var (after, answer) := Store.InitialiseNext(env, old(unit.Contents()), req);
              if Fails(BeginStages(old(unit.Contents()), req.commandId, answer))
              then reply == Refused(TransactionFailed) && unit.Contents() == old(unit.Contents())
              else unit.Contents() == after && reply == answer
    {
      hide Store.Initialise, Store.InitialiseReplacement, Ready;
      var current := unit.GetMutableRun();
      if current.Some? { reply := InitialiseReplacementRun(req); } else { reply := Initialise(req); }
    }

    /** The current projection of a stored run; nothing is written. */
    method SnapshotOfRun(runId: nat) returns (snapshot: Option<Snapshot>)
      requires Valid()
      ensures runId in unit.Contents().runs ==>
                unit.Contents().runs[runId].run.version in env.catalog
                && var l := LoadedFor(env, unit.Contents().runs[runId]);
                   Runnable(l.data, unit.Contents().runs[runId])
                     && snapshot == Some(SnapshotOf(l, env.def, unit.Contents().runs[runId]))
      ensures runId !in unit.Contents().runs ==> snapshot == None
    {
      hide ScenarioUnitOfWork.Contents, SnapshotOf, StoreInv, RunInv, WellFormed, Derivable, EnvironmentOk, Serviceable;
      var found := unit.HasRun(runId);
      if !found { return None; }
      Readable(env, unit.Contents(), runId);
      var r := unit.Read(runId);
      var s := AssembleSnapshot(runId, env.catalog[r.run.version]);
      snapshot := Some(s);
    }
  }
}
