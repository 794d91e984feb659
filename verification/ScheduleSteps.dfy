/** Each scheduled action is offered, accepted, and leads to the next station of the schedule. */
module ScheduleSteps {
  import opened Ids
  import opened Configuration
  import opened Topology
  import opened Telemetry
  import opened Outage
  import opened Restoration
  import opened TopologyFacts
  import opened Derivation
  import opened Scenario
  import opened Handlers
  import opened RunInvariant
  import opened RunPreservation
  import opened RunSteps
  import opened RunSafety
  import opened FaultSafety
  import opened Advertised
  import opened Schedule

  lemma StationFacts(l: Loaded, r: RunRecord, k: nat)
    requires OnSchedule(l, r, k)
    ensures Runnable(l.data, r) && Grounding(l.data, r) && Workflow(l.data, r) && |r.alarms| <= 1
    ensures k >= 1 ==> r.run.faultActive
    ensures k == 6 ==> |r.assessments| == 1 && Faithful(l, r, r.assessments[0])
  {
    hide AsSwitched, Cached, Accounted, Logged, Projection, Faithful, FaultIsDead, FormalNetwork;
    RunInvParts(l, r);
  }

  /** An offered command of the station's kind has a scheduled time. */
  lemma OfferedIsScheduled(l: Loaded, r: RunRecord, k: nat, req: Request)
    requires WellFormed(l.data) && OnSchedule(l, r, k) && k <= 6 && WellShaped(req) && req.kind == StationKind(k)
    requires Runnable(l.data, r) && OfferedBy(l, FORMAL_DEFINITION, r, req)
    ensures OffsetMs(req.kind, req.target) == Some(StationMs(k + 1))
    ensures k == 2 ==> req.target == Some(FIRST_SWITCH)
    ensures k == 3 ==> req.target == Some(SECOND_SWITCH)
  {
    hide AsSwitched, RunInv, FaultIsDead, WellFormed, GateTopology, NextIsolationTarget, RestoreGate, AssessGate;
    hide CurrentlyExecutable, ListedBoundaries, BoundarySet, Acknowledgeable;
    StationFacts(l, r, k);
    SwitchesDiffer();
    if k == 2 || k == 3 { TargetsOnSchedule(l.data, r, r.run.time); }
  }

  /** Isolation is proven from the fourth station until a minute after the run began. */
  lemma IsolatedOnSchedule(l: Loaded, r: RunRecord, k: nat, time: int)
    requires WellFormed(l.data) && OnSchedule(l, r, k) && 1 <= k <= 6
    requires r.run.time <= time <= r.run.initialTime + MAXIMUM_TELEMETRY_AGE_MS
    ensures Runnable(l.data, r) && (IsolatedIn(GateTopology(l.data, r, time)) <==> k >= 4)
  {
    hide AsSwitched, RunInv, FaultIsDead, WellFormed, TopologyAt, BoundarySet, SectionIds, SourceIds, IsolatedIn;
    hide StatusAt;
    StationFacts(l, r, k);
    IsolatedMeans(l.data, r.telemetry, r.run.sources, r.run.fault, time);
    StatusWithinAMinute(l.data, r, FIRST_SWITCH, time);
    StatusWithinAMinute(l.data, r, SECOND_SWITCH, time);
    assert ActiveFault(r.run) == Some(r.run.fault);
    assert SECOND_SWITCH in BoundarySet(l.data, r.run.fault);
  }

  /** Nothing but the handler's own checks stands in the way of a scheduled command. */
  lemma ScheduledIsHandled(l: Loaded, r: RunRecord, k: nat, req: Request)
    requires OnSchedule(l, r, k) && k <= 6 && WellShaped(req) && req.kind == StationKind(k) && Runnable(l.data, r)
    requires req.expectedRevision == r.run.revision && req.time == r.run.initialTime + StationMs(k + 1)
    ensures StepOf(l, FORMAL_DEFINITION, r, req) == Handle(l, FORMAL_DEFINITION, r, req) && r.run.status != RunClosed
    ensures GuardReason(r, req).None?
  {
    hide AsSwitched, RunInv, FaultIsDead, FormalNetwork, Handle, AffectedFeeder, Runnable, WellShaped;
  }

  lemma AlarmStationsAccepted(l: Loaded, r: RunRecord, k: nat, req: Request)
    requires WellFormed(l.data) && OnSchedule(l, r, k) && k <= 1 && WellShaped(req) && req.kind == StationKind(k)
    requires Runnable(l.data, r) && OfferedBy(l, FORMAL_DEFINITION, r, req)
    ensures Handle(l, FORMAL_DEFINITION, r, req).accepted
  {
    hide AsSwitched, RunInv, FaultIsDead, WellFormed, GateTopology, NextIsolationTarget, RestoreGate, AssessGate;
    hide BoundarySet;
    hide CurrentlyExecutable, ListedBoundaries, Acknowledgeable, BreakerNormallyClosed, EventsFrom, AffectedFeeder;
    hide HandleFault, HandleAcknowledge;
    StationFacts(l, r, k);
    if k == 0 { FormalBreakerIsNormal(l.data, r); FaultIff(l, r, req); } else { AcknowledgeIff(r, req); }
  }

  lemma FormalBreakerIsNormal(c: Network, r: RunRecord)
    requires Runnable(c, r) && FormalNetwork(c, r)
    ensures BreakerNormallyClosed(c, r)
  {
    hide BoundarySet, AffectedFeeder;
  }

  lemma IsolationStationsAccepted(l: Loaded, r: RunRecord, k: nat, req: Request)
    requires WellFormed(l.data) && OnSchedule(l, r, k) && (k == 2 || k == 3) && WellShaped(req)
             && req.kind == StationKind(k)
    requires Runnable(l.data, r) && OfferedBy(l, FORMAL_DEFINITION, r, req)
             && req.time == r.run.initialTime + StationMs(k + 1)
    ensures HandleIsolation(l.data, FORMAL_DEFINITION, r, req).accepted
  {
    hide AsSwitched, RunInv, FaultIsDead, WellFormed, GateTopology, NextIsolationTarget, RestoreGate, AssessGate;
    hide BoundarySet;
    hide CurrentlyExecutable, ListedBoundaries, Acknowledgeable, BreakerNormallyClosed, EventsFrom, AffectedFeeder;
    hide IsolatedRecord;
    StationFacts(l, r, k);
    OfferedIsScheduled(l, r, k, req);
    TargetsOnSchedule(l.data, r, req.time);
  }

  /** The offered command is accepted at its scheduled time. */
  lemma ScheduledIsAccepted(l: Loaded, r: RunRecord, k: nat, req: Request)
    requires WellFormed(l.data) && OnSchedule(l, r, k) && k <= 6 && WellShaped(req) && req.kind == StationKind(k)
    requires Runnable(l.data, r) && OfferedBy(l, FORMAL_DEFINITION, r, req)
    requires req.expectedRevision == r.run.revision && req.time == r.run.initialTime + StationMs(k + 1)
    ensures StepOf(l, FORMAL_DEFINITION, r, req).accepted
  {
    hide OnSchedule, WellFormed, Runnable, WellShaped, StepOf, HandleFault, HandleAcknowledge, HandleIsolation;
    hide HandleRestore;
    hide HandleExecute, AssessGate, CurrentlyExecutable, RestoreGate, ListedBoundaries, TargetAvailable, AssessedRecord;
    ScheduledIsHandled(l, r, k, req);
    if k <= 1 { AlarmStationsAccepted(l, r, k, req); }
    else if k <= 3 { IsolationStationsAccepted(l, r, k, req); }
    else if k == 4 { RestoreOnSchedule(l, r, req); }
    else if k == 5 { assert AssessGate(l.data, r, req.time) by { AssessIsOpen(l, r, req.time); } }
    else { ExecuteOnSchedule(l, r, req); }
  }

  lemma AssessIsOpen(l: Loaded, r: RunRecord, time: int)
    requires OnSchedule(l, r, 5) && Runnable(l.data, r)
    ensures AssessGate(l.data, r, time)
  {
    hide AsSwitched, RunInv, FaultIsDead, FormalNetwork, AssessGate;
    GateAtN3(l.data, r, time);
  }

  lemma GateAtN3(c: Network, r: RunRecord, time: int)
    requires Runnable(c, r) && r.run.network == N3
    ensures AssessGate(c, r, time)
  {
  }

  lemma RestoreOnSchedule(l: Loaded, r: RunRecord, req: Request)
    requires WellFormed(l.data) && OnSchedule(l, r, 4) && Runnable(l.data, r)
    requires req.target == Some(BreakerId(l.data, r)) && req.state == Some(Closed)
             && req.time == r.run.initialTime + 40_000
    ensures HandleRestore(l.data, r, req).accepted
  {
    hide AsSwitched, RunInv, FaultIsDead, WellFormed, TopologyAt, BoundarySet, OutageOf, EventsFrom, IsolatedIn;
    hide RecloseAvailable, RestoredRecord, Grounding;
    StationFacts(l, r, 4);
    IsolatedOnSchedule(l, r, 4, req.time);
  }

  lemma ExecuteOnSchedule(l: Loaded, r: RunRecord, req: Request)
    requires WellFormed(l.data) && OnSchedule(l, r, 6) && Runnable(l.data, r) && r.assessments != []
    requires CurrentlyExecutable(l, r) && req.assessment == Some(r.assessments[|r.assessments|-1].id)
    requires req.time == r.run.initialTime + 55_000
    ensures HandleExecute(l, r, req).accepted
  {
    hide AsSwitched, WellFormed, TopologyAt, OutageOf, Cached, Accounted, Logged, AssessedOnce, Invalidated, EventsFrom;
    hide ExecutedRecord, BindingMatches, Projection, BoundarySet, BoundariesOpen, Workflow, DeviceIds, SourceIds;
    hide SectionIds, FormalNetwork;
    StationFacts(l, r, 6);
    BindingIffStillPermitted(l, r, r.run.time);
    OutcomeWithinAMinute(l, r, r.run.time, req.time);
    BindingIffStillPermitted(l, r, req.time);
    ExecutionIsSafe(l, r, req.time);
  }

  // ---------------------------------------------------------------- landing on the next station

  /** What an accepted command writes, apart from what it derives. */
  lemma FaultWrites(c: Network, r: RunRecord, req: Request)
    requires Runnable(c, r) && HandleFault(c, r, req).accepted
    ensures var s := HandleFault(c, r, req).record;
            && s.run.network == N1 && s.run.time == req.time && s.run.status == Active && s.run.faultActive
            && s.run.sources == r.run.sources && s.run.revision == r.run.revision + 1
            && s.alarms == r.alarms + [Alarm(req.commandId, BreakerId(c, r), true, false, req.time, None, None)]
            && s.telemetry == Refresh(r.telemetry, BreakerId(c, r), Open, req.time, r.run.revision + 1)
  {
    hide TopologyAt, OutageOf, EventsFrom;
  }

  lemma AcknowledgeWrites(r: RunRecord, req: Request)
    requires |r.alarms| == 1 && HandleAcknowledge(r, req).accepted
    ensures var s := HandleAcknowledge(r, req).record;
            && s.run == r.run.(time := req.time) && s.telemetry == r.telemetry
            && |s.alarms| == 1 && s.alarms[0].active && s.alarms[0].acknowledged && s.alarms[0].id == r.alarms[0].id
  {
    hide EventsFrom;
  }

  lemma IsolationWrites(c: Network, def: Definition, r: RunRecord, req: Request)
    requires Runnable(c, r) && WellShaped(req) && req.kind == OperateIsolationDevice
             && HandleIsolation(c, def, r, req).accepted
    ensures var s := HandleIsolation(c, def, r, req).record;
            && s.run.network == (if IsolatedIn(TopologyAt(c, s.telemetry, r.run.sources, ActiveFault(r.run),
                                                          req.time)) then N2 else N1)
            && s.run.time == req.time && s.run.status == Active && s.alarms == r.alarms
               && s.run.faultActive == r.run.faultActive
            && s.run.sources == r.run.sources && s.run.revision == r.run.revision + 1
            && s.telemetry == Refresh(r.telemetry, req.target.value, Open, req.time, r.run.revision + 1)
  {
    hide TopologyAt, OutageOf, EventsFrom, TargetAvailable, IsolatedIn;
  }

  lemma RestoreWrites(c: Network, r: RunRecord, req: Request)
    requires Runnable(c, r) && HandleRestore(c, r, req).accepted
    ensures var s := HandleRestore(c, r, req).record;
            && s.run.network == N3 && s.run.time == req.time && s.run.status == Active && s.alarms == r.alarms
            && s.run.sources == r.run.sources && s.run.revision == r.run.revision + 1
            && s.telemetry == Refresh(r.telemetry, BreakerId(c, r), Closed, req.time, r.run.revision + 1)
  {
    hide TopologyAt, OutageOf, EventsFrom, RestoreGate;
  }

  lemma AssessWrites(l: Loaded, r: RunRecord, req: Request)
    requires Runnable(l.data, r) && HandleAssess(l, r, req).accepted
    ensures var s := HandleAssess(l, r, req).record;
            && s.run == r.run.(time := req.time, stage := RestorationAssessed, network := N4)
            && s.alarms == r.alarms && s.telemetry == r.telemetry && s.invalidations == r.invalidations
            && s.assessments != [] && s.assessments[|s.assessments|-1].time == req.time
            && s.assessments[|s.assessments|-1].id == req.commandId
  {
    hide TopologyAt, OutageOf, EventsFrom, AssessGate, Assess, InputsFor;
    OutcomeIgnoresIdentity(l, r, req.time, req.commandId, MaxAssessmentSequence(r.assessments) + 1);
  }

  lemma ExecuteWrites(l: Loaded, r: RunRecord, req: Request)
    requires Runnable(l.data, r) && HandleExecute(l, r, req).accepted
    ensures Executable(r)
    ensures var s := HandleExecute(l, r, req).record;
            && s.run.network == N5 && s.run.time == req.time && s.run.status == RunComplete && s.alarms == r.alarms
            && s.run.sources == r.run.sources && s.run.revision == r.run.revision + 1 && s.assessments == r.assessments
            && s.telemetry == Refresh(r.telemetry, CurrentTie(r), Closed, req.time, r.run.revision + 1)
  {
    hide TopologyAt, OutageOf, EventsFrom, BindingMatches, Projection;
  }

  /** The network keeps its shape, and what the invariant gives is kept by every command. */
  lemma KeepsFormal(l: Loaded, r: RunRecord, k: nat, req: Request)
    requires WellFormed(l.data) && OnSchedule(l, r, k) && WellShaped(req) && FreshAssessment(r, req.commandId)
    requires Runnable(l.data, r) && StepOf(l, FORMAL_DEFINITION, r, req).record.run.network != N0
    ensures var s := StepOf(l, FORMAL_DEFINITION, r, req).record;
            RunInv(l, s) && FaultIsDead(l.data, s) && FormalNetwork(l.data, s) && s.run.initialTime == r.run.initialTime
            && s.run.fault == r.run.fault && Grounding(l.data, s)
  {
    hide AsSwitched, RunInv, FaultIsDead, WellFormed, StepOf, BoundarySet, FreshAssessment;
    StepKeepsRun(l, FORMAL_DEFINITION, r, req);
    StepKeepsDead(l, FORMAL_DEFINITION, r, req);
    GroundingRun(l, StepOf(l, FORMAL_DEFINITION, r, req).record);
  }

  /** With both switches settled isolation is proven when both are open. */
  lemma IsolatedOnceOpen(l: Loaded, r: RunRecord, time: int)
    requires WellFormed(l.data) && Runnable(l.data, r) && Grounding(l.data, r) && FormalNetwork(l.data, r)
    requires r.run.time <= time <= r.run.initialTime + MAXIMUM_TELEMETRY_AGE_MS
    requires FIRST_SWITCH in r.telemetry && SECOND_SWITCH in r.telemetry && r.telemetry[FIRST_SWITCH].value == Open
    ensures IsolatedIn(TopologyAt(l.data, r.telemetry, r.run.sources, Some(r.run.fault), time))
            <==> r.telemetry[SECOND_SWITCH].value == Open
  {
    hide WellFormed, TopologyAt, BoundarySet, IsolatedIn, SectionIds, SourceIds, DeviceIds, StatusAt, AffectedFeeder;
    IsolatedMeans(l.data, r.telemetry, r.run.sources, r.run.fault, time);
    StatusWithinAMinute(l.data, r, FIRST_SWITCH, time);
    StatusWithinAMinute(l.data, r, SECOND_SWITCH, time);
    assert FIRST_SWITCH in BoundarySet(l.data, r.run.fault) && SECOND_SWITCH in BoundarySet(l.data, r.run.fault);
  }

  lemma IsolationLands(l: Loaded, r: RunRecord, k: nat, req: Request)
    requires WellFormed(l.data) && OnSchedule(l, r, k) && (k == 2 || k == 3) && WellShaped(req)
             && req.kind == OperateIsolationDevice
    requires req.time == r.run.initialTime + StationMs(k + 1) && FreshAssessment(r, req.commandId)
             && req.expectedRevision == r.run.revision
    requires req.target == Some(if k == 2 then FIRST_SWITCH else SECOND_SWITCH)
    requires Runnable(l.data, r) && StepOf(l, FORMAL_DEFINITION, r, req).accepted
    ensures OnStation(l, StepOf(l, FORMAL_DEFINITION, r, req).record, k + 1)
  {
    hide AsSwitched, RunInv, FaultIsDead, WellFormed, TopologyAt, IsolatedIn, HandleIsolation, FreshAssessment;
    hide FormalNetwork;
    hide Grounding, AffectedFeeder;
    SwitchesDiffer();
    StationFacts(l, r, k);
    IsolationWrites(l.data, FORMAL_DEFINITION, r, req);
    KeepsFormal(l, r, k, req);
    var s := StepOf(l, FORMAL_DEFINITION, r, req).record;
    RunnableRun(l, s);
    IsolatedOnceOpen(l, s, req.time);
  }

  lemma AssessLands(l: Loaded, r: RunRecord, req: Request)
    requires WellFormed(l.data) && OnSchedule(l, r, 5) && WellShaped(req) && req.kind == AssessRestoration
    requires req.time == r.run.initialTime + 50_000 && FreshAssessment(r, req.commandId)
             && req.expectedRevision == r.run.revision
    requires Runnable(l.data, r) && StepOf(l, FORMAL_DEFINITION, r, req).accepted
    ensures OnStation(l, StepOf(l, FORMAL_DEFINITION, r, req).record, 6)
  {
    hide AsSwitched, RunInv, FaultIsDead, WellFormed, HandleAssess, FreshAssessment, FormalNetwork;
    AssessWrites(l, r, req);
    KeepsFormal(l, r, 5, req);
    NotInvalidatedBefore(l, r);
  }

  lemma ExecuteLands(l: Loaded, r: RunRecord, req: Request)
    requires WellFormed(l.data) && OnSchedule(l, r, 6) && WellShaped(req) && req.kind == ExecuteRestoration
    requires req.time == r.run.initialTime + 55_000 && FreshAssessment(r, req.commandId)
             && req.expectedRevision == r.run.revision
    requires Runnable(l.data, r) && StepOf(l, FORMAL_DEFINITION, r, req).accepted
    ensures OnStation(l, StepOf(l, FORMAL_DEFINITION, r, req).record, 7)
  {
    hide AsSwitched, RunInv, FaultIsDead, WellFormed, HandleExecute, FreshAssessment, FormalNetwork, Executable;
    ExecuteWrites(l, r, req);
    KeepsFormal(l, r, 6, req);
    TieOffSwitches(l, r, req);
  }

  lemma RestoreLands(l: Loaded, r: RunRecord, req: Request)
    requires WellFormed(l.data) && OnSchedule(l, r, 4) && WellShaped(req) && req.kind == RestoreNormalSource
    requires req.time == r.run.initialTime + 40_000 && FreshAssessment(r, req.commandId)
             && req.expectedRevision == r.run.revision
    requires Runnable(l.data, r) && StepOf(l, FORMAL_DEFINITION, r, req).accepted
    ensures OnStation(l, StepOf(l, FORMAL_DEFINITION, r, req).record, 5)
  {
    hide AsSwitched, RunInv, FaultIsDead, WellFormed, HandleRestore, FreshAssessment, FormalNetwork;
    RestoreWrites(l.data, r, req);
    KeepsFormal(l, r, 4, req);
    BreakerOffSwitches(l.data, r);
  }

  lemma AcceptedIsHandled(l: Loaded, r: RunRecord, req: Request)
    requires Runnable(l.data, r) && WellShaped(req) && req.kind != ResetRun
    requires StepOf(l, FORMAL_DEFINITION, r, req).accepted
    ensures StepOf(l, FORMAL_DEFINITION, r, req) == Handle(l, FORMAL_DEFINITION, r, req)
  {
    hide Handle, Runnable;
  }

  lemma NormalHasNoAlarm(l: Loaded, r: RunRecord)
    requires OnSchedule(l, r, 0) && Runnable(l.data, r) && Workflow(l.data, r)
    ensures r.alarms == []
  {
    hide AsSwitched, RunInv, FaultIsDead, FormalNetwork, NormalPoints;
  }

  lemma FaultLands(l: Loaded, r: RunRecord, req: Request)
    requires WellFormed(l.data) && OnSchedule(l, r, 0) && WellShaped(req) && req.kind == InitiateFault
    requires req.time == r.run.initialTime + 10_000 && FreshAssessment(r, req.commandId)
             && req.expectedRevision == r.run.revision
    requires Runnable(l.data, r) && StepOf(l, FORMAL_DEFINITION, r, req).accepted
    ensures OnStation(l, StepOf(l, FORMAL_DEFINITION, r, req).record, 1)
  {
    hide AsSwitched, RunInv, FaultIsDead, WellFormed, HandleFault, FreshAssessment, FormalNetwork, Grounding;
    hide AffectedFeeder, StepOf, Workflow;
    StationFacts(l, r, 0);
    NormalHasNoAlarm(l, r);
    AcceptedIsHandled(l, r, req);
    BreakerOffSwitches(l.data, r);
    FaultWrites(l.data, r, req);
    KeepsFormal(l, r, 0, req);
  }

  lemma AcknowledgeLands(l: Loaded, r: RunRecord, req: Request)
    requires WellFormed(l.data) && OnSchedule(l, r, 1) && WellShaped(req) && req.kind == AcknowledgeAlarm
    requires req.time == r.run.initialTime + 11_000 && FreshAssessment(r, req.commandId)
             && req.expectedRevision == r.run.revision
    requires Runnable(l.data, r) && StepOf(l, FORMAL_DEFINITION, r, req).accepted
    ensures OnStation(l, StepOf(l, FORMAL_DEFINITION, r, req).record, 2)
  {
    hide AsSwitched, RunInv, FaultIsDead, WellFormed, HandleAcknowledge, FreshAssessment, FormalNetwork, Grounding;
    hide HandleFault, HandleIsolation, HandleRestore, HandleAssess, HandleExecute, HandleReset, AffectedFeeder;
    StationFacts(l, r, 1);
    AcknowledgeWrites(r, req);
    KeepsFormal(l, r, 1, req);
  }

  lemma IsolationSwitches(l: Loaded, r: RunRecord, k: nat, req: Request)
    requires WellFormed(l.data) && OnSchedule(l, r, k) && (k == 2 || k == 3) && WellShaped(req)
             && req.kind == StationKind(k)
    requires req.target == Some(if k == 2 then FIRST_SWITCH else SECOND_SWITCH)
    requires Runnable(l.data, r) && StepOf(l, FORMAL_DEFINITION, r, req).accepted
    requires Runnable(l.data, StepOf(l, FORMAL_DEFINITION, r, req).record)
    requires StepOf(l, FORMAL_DEFINITION, r, req).record.run.fault == r.run.fault
    ensures AsSwitched(l.data, StepOf(l, FORMAL_DEFINITION, r, req).record, k + 1)
  {
    hide RunInv, FaultIsDead, WellFormed, FormalNetwork, NormallyClosed, NormalSources, ScheduledStates, AffectedFeeder;
    hide Refresh, StatesOf, Workflow, Grounding;
    hide HandleIsolation;
    StatesStep(l.data, r, k);
    IsolationWrites(l.data, FORMAL_DEFINITION, r, req);
    RefreshStates(r.telemetry, req.target.value, Open, req.time, r.run.revision + 1);
  }

  lemma BreakerSwitches(l: Loaded, r: RunRecord, k: nat, req: Request)
    requires WellFormed(l.data) && OnSchedule(l, r, k) && (k == 0 || k == 4) && WellShaped(req)
             && req.kind == StationKind(k)
    requires Runnable(l.data, r) && StepOf(l, FORMAL_DEFINITION, r, req).accepted
    requires Runnable(l.data, StepOf(l, FORMAL_DEFINITION, r, req).record)
    requires StepOf(l, FORMAL_DEFINITION, r, req).record.run.fault == r.run.fault
    ensures AsSwitched(l.data, StepOf(l, FORMAL_DEFINITION, r, req).record, k + 1)
  {
    hide RunInv, FaultIsDead, WellFormed, FormalNetwork, NormallyClosed, NormalSources, ScheduledStates, AffectedFeeder;
    hide Refresh, StatesOf, Workflow, Grounding;
    hide HandleFault, HandleRestore;
    StatesStep(l.data, r, k);
    if k == 0 { FaultWrites(l.data, r, req); } else { RestoreWrites(l.data, r, req); }
    RefreshStates(r.telemetry, BreakerId(l.data, r), if k == 0 then Open else Closed, req.time, r.run.revision + 1);
  }

  lemma OthersSwitchNothing(l: Loaded, r: RunRecord, k: nat, req: Request)
    requires WellFormed(l.data) && OnSchedule(l, r, k) && k in {1, 5, 6} && WellShaped(req)
             && req.kind == StationKind(k)
    requires Runnable(l.data, r) && StepOf(l, FORMAL_DEFINITION, r, req).accepted
    requires Runnable(l.data, StepOf(l, FORMAL_DEFINITION, r, req).record)
    requires StepOf(l, FORMAL_DEFINITION, r, req).record.run.fault == r.run.fault
    ensures AsSwitched(l.data, StepOf(l, FORMAL_DEFINITION, r, req).record, k + 1)
  {
    hide RunInv, FaultIsDead, WellFormed, FormalNetwork, NormallyClosed, NormalSources, ScheduledStates, AffectedFeeder;
    hide Refresh, StatesOf, Workflow, Grounding;
    hide HandleAcknowledge, HandleAssess, HandleExecute;
    if k == 1 {
      StatesStep(l.data, r, 1);
      StationFacts(l, r, 1);
      AcknowledgeWrites(r, req);
    } else if k == 5 {
      StatesStep(l.data, r, 5);
      AssessWrites(l, r, req);
    } else {
      ExecuteWrites(l, r, req);
    }
  }

  /** What the scheduled command switches. */
  lemma SwitchedLands(l: Loaded, r: RunRecord, k: nat, req: Request)
    requires WellFormed(l.data) && OnSchedule(l, r, k) && k <= 6 && WellShaped(req) && req.kind == StationKind(k)
    requires k == 2 ==> req.target == Some(FIRST_SWITCH)
    requires k == 3 ==> req.target == Some(SECOND_SWITCH)
    requires Runnable(l.data, r) && StepOf(l, FORMAL_DEFINITION, r, req).accepted
    requires Runnable(l.data, StepOf(l, FORMAL_DEFINITION, r, req).record)
    requires StepOf(l, FORMAL_DEFINITION, r, req).record.run.fault == r.run.fault
    ensures AsSwitched(l.data, StepOf(l, FORMAL_DEFINITION, r, req).record, k + 1)
  {
    hide WellFormed, StepOf, OnSchedule, AsSwitched, Runnable;
    if k == 2 || k == 3 { IsolationSwitches(l, r, k, req); }
    else if k == 0 || k == 4 { BreakerSwitches(l, r, k, req); }
    else { OthersSwitchNothing(l, r, k, req); }
  }

  /** How the scheduled states follow each other. */
  lemma StatesStep(c: Network, r: RunRecord, k: nat)
    requires Runnable(c, r) && FormalNetwork(c, r) && NormallyClosed(c, BreakerId(c, r)) && k <= 5
    ensures var b := BreakerId(c, r); var s, t := ScheduledStates(c, b, k), ScheduledStates(c, b, k + 1);
            t == match k
                 case 0 => s[b := Open] case 2 => s[FIRST_SWITCH := Open] case 3 => s[SECOND_SWITCH := Open]
                 case 4 => s[b := Closed] case _ => s
  {
    hide BoundarySet, AffectedFeeder, DeviceById;
    SwitchesDiffer();
    var b := BreakerId(c, r);
    assert b in NormalStates(c) && NormalStates(c)[b] == Closed;
  }

  /** An accepted scheduled command leads to the next station. */
  lemma ScheduledLands(l: Loaded, r: RunRecord, k: nat, req: Request)
    requires WellFormed(l.data) && OnSchedule(l, r, k) && k <= 6 && WellShaped(req) && req.kind == StationKind(k)
    requires req.time == r.run.initialTime + StationMs(k + 1) && FreshAssessment(r, req.commandId)
             && req.expectedRevision == r.run.revision
    requires k == 2 ==> req.target == Some(FIRST_SWITCH)
    requires k == 3 ==> req.target == Some(SECOND_SWITCH)
    requires Runnable(l.data, r) && StepOf(l, FORMAL_DEFINITION, r, req).accepted
    ensures OnSchedule(l, StepOf(l, FORMAL_DEFINITION, r, req).record, k + 1)
  {
    hide OnStation, AsSwitched, WellFormed, StepOf, FreshAssessment;
    if k == 0 { FaultLands(l, r, req); }
    else if k == 1 { AcknowledgeLands(l, r, req); }
    else if k <= 3 { IsolationLands(l, r, k, req); }
    else if k == 4 { RestoreLands(l, r, req); }
    else if k == 5 { AssessLands(l, r, req); }
    else { ExecuteLands(l, r, req); }
    LandedFault(l, r, k, req);
    SwitchedLands(l, r, k, req);
  }

  lemma LandedFault(l: Loaded, r: RunRecord, k: nat, req: Request)
    requires WellFormed(l.data) && OnSchedule(l, r, k) && k <= 6 && WellShaped(req) && FreshAssessment(r, req.commandId)
    requires Runnable(l.data, r) && OnStation(l, StepOf(l, FORMAL_DEFINITION, r, req).record, k + 1)
    ensures var s := StepOf(l, FORMAL_DEFINITION, r, req).record;
            Runnable(l.data, s) && s.run.fault == r.run.fault
  {
    hide WellFormed, StepOf, RunInv, FaultIsDead, FormalNetwork, FreshAssessment, AsSwitched;
    KeepsFormal(l, r, k, req);
    RunnableRun(l, StepOf(l, FORMAL_DEFINITION, r, req).record);
  }

  predicate FormalBreaker(c: Network, r: RunRecord)
    requires Runnable(c, r)
  {
    BreakerId(c, r) != FIRST_SWITCH && BreakerId(c, r) != SECOND_SWITCH
  }

  lemma BreakerOffSwitches(c: Network, r: RunRecord)
    requires Runnable(c, r) && FormalNetwork(c, r)
    ensures FormalBreaker(c, r)
  {
  }

  lemma NotInvalidatedBefore(l: Loaded, r: RunRecord)
    requires OnSchedule(l, r, 5)
    ensures r.invalidations == []
  {
    hide AsSwitched, Cached, Accounted, Logged, Workflow, Grounding, FormalNetwork, FaultIsDead, Invalidated;
    RunInvParts(l, r);
  }

  /** The tie that is closed is neither of the two open switches. */
  lemma TieOffSwitches(l: Loaded, r: RunRecord, req: Request)
    requires WellFormed(l.data) && OnSchedule(l, r, 6) && Runnable(l.data, r) && HandleExecute(l, r, req).accepted
    ensures Executable(r) && CurrentTie(r) != FIRST_SWITCH && CurrentTie(r) != SECOND_SWITCH
  {
    hide AsSwitched, WellFormed, TopologyAt, OutageOf, Cached, Accounted, Logged, AssessedOnce, Invalidated, EventsFrom;
    hide ExecutedRecord, BindingMatches, Projection, BoundarySet, BoundariesOpen, Workflow, Grounding;
    BindingIffStillPermitted(l, r, req.time);
    ExecutionIsSafe(l, r, req.time);
  }

  // ---------------------------------------------------------------- what is offered at each station

  /** The request that carries out an action at a time. */
  function RequestFor(a: Action, r: RunRecord, commandId: nat, actor: string, time: int): Request {
    Request(commandId, r.run.id, actor, r.run.revision, a.kind, time, a.target, a.state, a.alarm, a.assessment)
  }

  lemma {:induction false} AlarmActionsShaped(alarms: seq<Alarm>, mutable: bool)
    ensures forall a | a in AlarmActions(alarms, mutable) ::
              a.kind == AcknowledgeAlarm && a.target.None? && a.state.None? && a.alarm.Some? && a.assessment.None?
  {
    if alarms != [] { AlarmActionsShaped(alarms[1..], mutable); }
  }

  lemma {:induction false} IsolationActionsShaped(def: Definition, run: RunContext, t: TopologyResult,
      devices: seq<Id>, mutable: bool)
    ensures forall a | a in IsolationActions(def, run, t, devices, mutable) ::
              a.kind == OperateIsolationDevice && a.target.Some? && a.state.Some? && a.alarm.None? && a.assessment.None?
  {
    hide TargetAvailable;
    if devices != [] { IsolationActionsShaped(def, run, t, devices[1..], mutable); }
  }

  /** Every available action makes a well-shaped request. */
  lemma ActionsShaped(l: Loaded, def: Definition, r: RunRecord, a: Action, commandId: nat, actor: string, time: int)
    requires Runnable(l.data, r) && a in AllowedActions(l, def, r) && a.available
    ensures WellShaped(RequestFor(a, r, commandId, actor, time))
  {
    hide GateTopology, RestoreGate, AssessGate, CurrentlyExecutable, IsolationActions, AlarmActions, ListedBoundaries;
    AlarmActionsShaped(r.alarms, r.run.status != RunClosed);
    var t := GateTopology(l.data, r, r.run.time);
    IsolationActionsShaped(def, r.run, t, ListedBoundaries(def, r.run, t), r.run.status != RunClosed);
    ExecutableHasAssessment(l, r);
  }

  /** An available action of the station's kind is offered as its request. */
  lemma ActionIsOffered(l: Loaded, def: Definition, r: RunRecord, a: Action, commandId: nat, actor: string, time: int)
    requires Runnable(l.data, r) && a in AllowedActions(l, def, r) && a.available
    ensures WellShaped(RequestFor(a, r, commandId, actor, time))
            && OfferedBy(l, def, r, RequestFor(a, r, commandId, actor, time))
  {
    hide AllowedActions, OfferedBy, WellShaped;
    ActionsShaped(l, def, r, a, commandId, actor, time);
    OfferedMeans(l, def, r, RequestFor(a, r, commandId, actor, time));
    assert Matches(a, RequestFor(a, r, commandId, actor, time));
  }

  /** The shape of the station's command. */
  function StationRequest(l: Loaded, r: RunRecord, k: nat): Request
    requires Runnable(l.data, r) && (k == 1 ==> |r.alarms| == 1) && (k >= 6 ==> r.assessments != [])
  {
    var kind := StationKind(k);
    Request(0, r.run.id, "", r.run.revision, kind, r.run.time,
            match k case 2 => Some(FIRST_SWITCH) case 3 => Some(SECOND_SWITCH) case 4 => Some(BreakerId(l.data,
              r)) case _ => None,
            match k case 2 => Some(Open) case 3 => Some(Open) case 4 => Some(Closed) case _ => None,
            if k == 1 then Some(r.alarms[0].id) else None,
            if k >= 6 then Some(r.assessments[|r.assessments|-1].id) else None)
  }

  /** The station's command is well shaped and on offer. */
  ghost predicate OnOffer(l: Loaded, r: RunRecord, k: nat)
    requires Runnable(l.data, r) && (k == 1 ==> |r.alarms| == 1) && (k >= 6 ==> r.assessments != [])
  {
    WellShaped(StationRequest(l, r, k)) && OfferedBy(l, FORMAL_DEFINITION, r, StationRequest(l, r, k))
  }

  lemma AlarmStationsOffered(l: Loaded, r: RunRecord, k: nat)
    requires OnSchedule(l, r, k) && k <= 1 && Runnable(l.data, r)
    ensures (k == 1 ==> |r.alarms| == 1) && OnOffer(l, r, k)
  {
    hide RunInv, FaultIsDead, FormalNetwork, AsSwitched, Grounding, AffectedFeeder;
    StationFacts(l, r, k);
    assert k == 1 ==> Acknowledgeable(r.alarms[0]) && StationRequest(l, r, 1).alarm == Some(r.alarms[0].id);
  }

  lemma IsolationStationsOffered(l: Loaded, r: RunRecord, k: nat)
    requires WellFormed(l.data) && OnSchedule(l, r, k) && (k == 2 || k == 3) && Runnable(l.data, r)
    ensures OnOffer(l, r, k)
  {
    hide RunInv, FaultIsDead, WellFormed, FormalNetwork, AsSwitched, GateTopology, TargetAvailable, ListedBoundaries;
    hide AffectedFeeder;
    TargetOffered(l, r, k);
  }

  lemma RestoreStationOffered(l: Loaded, r: RunRecord)
    requires WellFormed(l.data) && OnSchedule(l, r, 4) && Runnable(l.data, r)
    ensures OnOffer(l, r, 4)
  {
    hide RunInv, FaultIsDead, WellFormed, FormalNetwork, AsSwitched, GateTopology, RestoreGate, IsolatedIn;
    hide AffectedFeeder;
    IsolatedOnSchedule(l, r, 4, r.run.time);
    RestoreGateFormal(l, r);
  }

  lemma AssessStationOffered(l: Loaded, r: RunRecord)
    requires OnSchedule(l, r, 5) && Runnable(l.data, r)
    ensures OnOffer(l, r, 5)
  {
    hide RunInv, FaultIsDead, FormalNetwork, AsSwitched, AssessGate, AffectedFeeder;
    GateAtN3(l.data, r, r.run.time);
  }

  lemma ExecuteStationOffered(l: Loaded, r: RunRecord)
    requires WellFormed(l.data) && OnSchedule(l, r, 6) && Runnable(l.data, r)
    requires r.assessments != [] && r.assessments[|r.assessments|-1].outcome == Permitted
    ensures OnOffer(l, r, 6)
  {
    hide RunInv, FaultIsDead, WellFormed, FormalNetwork, AsSwitched, CurrentlyExecutable, AffectedFeeder;
    PermittedIsExecutable(l, r);
  }

  /** At every station the scheduled command is offered, except that EXECUTE needs the assessment to be
      PERMITTED. */
  lemma StationIsReady(l: Loaded, r: RunRecord, k: nat)
    requires WellFormed(l.data) && OnSchedule(l, r, k) && k <= 6
    requires k == 6 ==> r.assessments != [] && r.assessments[|r.assessments|-1].outcome == Permitted
    ensures Runnable(l.data, r) && (k == 1 ==> |r.alarms| == 1) && OnOffer(l, r, k)
  {
    hide OnSchedule, WellFormed, OnOffer, Runnable;
    assert Runnable(l.data, r) by { StationFacts(l, r, k); }
    if k <= 1 { AlarmStationsOffered(l, r, k); }
    else if k <= 3 { IsolationStationsOffered(l, r, k); }
    else if k == 4 { RestoreStationOffered(l, r); }
    else if k == 5 { AssessStationOffered(l, r); }
    else { ExecuteStationOffered(l, r); }
  }

  /** The listed action that offers it. */
  lemma StationIsOffered(l: Loaded, r: RunRecord, k: nat) returns (a: Action)
    requires WellFormed(l.data) && OnSchedule(l, r, k) && k <= 6
    requires k == 6 ==> r.assessments != [] && r.assessments[|r.assessments|-1].outcome == Permitted
    ensures Runnable(l.data, r)
    ensures a in AllowedActions(l, FORMAL_DEFINITION, r) && a.available && a.kind == StationKind(k)
  {
    hide OnSchedule, WellFormed, Runnable, AllowedActions, OfferedBy;
    StationIsReady(l, r, k);
    var req := StationRequest(l, r, k);
    OfferedMeans(l, FORMAL_DEFINITION, r, req);
    a :| a in AllowedActions(l, FORMAL_DEFINITION, r) && a.available && Matches(a, req);
  }

  lemma RestoreGateFormal(l: Loaded, r: RunRecord)
    requires OnSchedule(l, r, 4) && Runnable(l.data, r) && IsolatedIn(GateTopology(l.data, r, r.run.time))
    ensures RestoreGate(l.data, r, r.run.time)
  {
    hide AsSwitched, RunInv, FaultIsDead, GateTopology, IsolatedIn, BoundarySet;
  }

  lemma TargetOffered(l: Loaded, r: RunRecord, k: nat)
    requires WellFormed(l.data) && OnSchedule(l, r, k) && (k == 2 || k == 3) && Runnable(l.data, r)
    ensures var t := GateTopology(l.data, r, r.run.time); var d := if k == 2 then FIRST_SWITCH else SECOND_SWITCH;
            TargetAvailable(FORMAL_DEFINITION, r.run, t, Some(d)) && d in ListedBoundaries(FORMAL_DEFINITION, r.run, t)
  {
    hide AsSwitched, RunInv, FaultIsDead, WellFormed, GateTopology, NextIsolationTarget, BoundarySet, ListedBoundaries;
    StationFacts(l, r, k);
    TargetsOnSchedule(l.data, r, r.run.time);
    TargetIsListed(l.data, FORMAL_DEFINITION, r, r.run.time, Some(if k == 2 then FIRST_SWITCH else SECOND_SWITCH));
  }

  lemma PermittedIsExecutable(l: Loaded, r: RunRecord)
    requires WellFormed(l.data) && OnSchedule(l, r, 6) && r.assessments != []
             && r.assessments[|r.assessments|-1].outcome == Permitted
    ensures CurrentlyExecutable(l, r) && r.run.network == N4
  {
    hide AsSwitched, WellFormed, TopologyAt, OutageOf, Cached, Accounted, Logged, AssessedOnce, Invalidated;
    hide BindingMatches, Projection, BoundarySet, Workflow, Grounding, FormalNetwork, FaultIsDead, InputsFor, Assess;
    StationFacts(l, r, 6);
    var a := r.assessments[0];
    OutcomeIgnoresIdentity(l, r, a.time, a.id, a.sequence);
    PermittedHasCandidate(l, r);
    BindingIffStillPermitted(l, r, r.run.time);
  }

  lemma PermittedHasCandidate(l: Loaded, r: RunRecord)
    ensures Projection(l, r, r.run.time).outcome == Permitted ==> Projection(l, r, r.run.time).candidate.Some?
  {
    hide InputsFor, CandidateOf, PermissivesOf, CalculationOf;
  }

  /** Only the second station offers an acknowledgement, and EXECUTE is never offered for an assessment
      that is not PERMITTED. */
  lemma OnlyStationIsOffered(l: Loaded, r: RunRecord, k: nat, a: Action)
    requires WellFormed(l.data) && OnSchedule(l, r, k) && k <= 6 && Runnable(l.data, r)
    requires a in AllowedActions(l, FORMAL_DEFINITION, r) && a.available
    ensures a.kind == AcknowledgeAlarm ==> k == 1
    ensures k == 6 && a.kind == ExecuteRestoration ==> r.assessments != []
                                                       && r.assessments[|r.assessments|-1].outcome == Permitted
  {
    hide AsSwitched, RunInv, FaultIsDead, WellFormed, GateTopology, RestoreGate, AssessGate, ListedBoundaries;
    hide BoundarySet, AllowedActions, TargetAvailable, FormalNetwork, BindingMatches, Projection;
    StationFacts(l, r, k);
    ActionIsOffered(l, FORMAL_DEFINITION, r, a, 0, "", 0);
  }

  // ---------------------------------------------------------------- where the schedule starts

  /** A fresh FORMAL run stands at the start of the schedule when the two switches alone bound its
      fault and they and the affected breaker are normally closed. */
  lemma FreshRunIsOnSchedule(l: Loaded, id: nat, fault: Id, time: int, buildId: string, actor: string)
    requires WellFormed(l.data) && fault in SectionIds(l.data)
    requires BoundarySet(l.data, fault) == {FIRST_SWITCH, SECOND_SWITCH}
    requires AffectedFeeder(l.data, fault).Some?
    requires NormallyClosed(l.data, FIRST_SWITCH) && NormallyClosed(l.data, SECOND_SWITCH)
    requires NormallyClosed(l.data, AffectedFeeder(l.data, fault).value.breakerId)
    requires AffectedFeeder(l.data, fault).value.breakerId !in {FIRST_SWITCH, SECOND_SWITCH}
    ensures OnSchedule(l, NewRecord(l, id, Formal, fault, time, buildId, actor), 0)
  {
    hide WellFormed, RunInv, TopologyAt, OutageOf, EventsFrom, NormalSources, BoundarySet, AffectedFeeder, SectionIds;
    var r := NewRecord(l, id, Formal, fault, time, buildId, actor);
    NewKeeps(l, id, Formal, fault, time, buildId, actor);
    RunnableRun(l, r);
    assert r.telemetry == NormalPoints(l.data, time);
  }
}
