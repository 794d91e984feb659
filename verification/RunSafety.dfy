/** Safety of a whole run: the invariant and the dead fault section survive every command. */
module RunSafety {
  import opened Ids
  import opened Configuration
  import opened Outage
  import opened Restoration
  import opened Derivation
  import opened Scenario
  import opened Handlers
  import opened RunInvariant
  import opened RunPreservation
  import opened RunSteps

  /** What one command leaves alone: history only grows, and nothing goes backwards. */
  ghost predicate Forward(r: RunRecord, s: RunRecord) {
    && r.events <= s.events && r.assessments <= s.assessments && r.invalidations <= s.invalidations
    && r.run.time <= s.run.time && r.run.revision <= s.run.revision
    && Order(r.run.network) <= Order(s.run.network)
    && s.run.id == r.run.id && s.run.mode == r.run.mode && s.run.fault == r.run.fault
    && s.run.version == r.run.version && s.run.buildId == r.run.buildId && s.run.initialTime == r.run.initialTime
  }

  lemma FaultKeeps(l: Loaded, r: RunRecord, req: Request)
    requires WellFormed(l.data) && RunInv(l, r) && GuardReason(r, req).None? && HandleFault(l.data, r, req).accepted
    ensures RunInv(l, HandleFault(l.data, r, req).record) && Forward(r, HandleFault(l.data, r, req).record)
  {
    hide WellFormed, TopologyAt, OutageOf, EventsFrom, RunInv, CoreInv;
    RunnableRun(l, r);
    FaultCore(l, r, req);
    var b := BreakerId(l.data, r);
    AcceptKeeps(l, r, FaultedRecord(l.data, r, req), req.commandId, req.actor,
                [Spec(FaultInitiated, Some(r.run.fault)), Spec(TelemetryUpdated, Some(b)),
                  Spec(DeviceStateChange, Some(b)),
                 EventSpec(AlarmGenerated, Some(b), Some(req.commandId), None)] + DerivedSpecs(None));
  }

  lemma AcknowledgeKeeps(l: Loaded, r: RunRecord, req: Request)
    requires WellFormed(l.data) && RunInv(l, r) && GuardReason(r, req).None? && HandleAcknowledge(r, req).accepted
    ensures RunInv(l, HandleAcknowledge(r, req).record) && Forward(r, HandleAcknowledge(r, req).record)
  {
    hide WellFormed, EventsFrom, RunInv, CoreInv;
    var k := AlarmIndex(r.alarms, req.alarm);
    var alarm := r.alarms[k].(acknowledged := true, acknowledgedAt := Some(req.time),
                              acknowledgedBy := Some(req.actor));
    var alarms := r.alarms[k := alarm];
    AcknowledgeCore(l, r, req, alarms);
    AcceptKeeps(l, r, r.(alarms := alarms, run := r.run.(time := req.time)), req.commandId, req.actor,
                [EventSpec(AlarmAcknowledged, Some(alarm.device), Some(alarm.id), None)]);
  }

  lemma IsolationKeeps(l: Loaded, def: Definition, r: RunRecord, req: Request)
    requires WellFormed(l.data) && RunInv(l, r) && GuardReason(r, req).None? && WellShaped(req)
             && req.kind == OperateIsolationDevice
    requires HandleIsolation(l.data, def, r, req).accepted
    ensures RunInv(l, HandleIsolation(l.data, def, r, req).record)
            && Forward(r, HandleIsolation(l.data, def, r, req).record)
  {
    hide WellFormed, TopologyAt, OutageOf, EventsFrom, CoreInv, TargetAvailable, Grounding, Workflow, Cached, Accounted;
    hide Logged, AssessedOnce, Invalidated, IsolatedIn;
    RunInvParts(l, r);
    TargetIsDevice(l.data, def, r, req.time, req.target);
    IsolationCore(l, r, req.target.value, req.time);
    AcceptKeeps(l, r, IsolatedRecord(l.data, r, req.target.value, req.time), req.commandId, req.actor,
                SwitchingSpecs(req.target.value, None));
  }

  lemma RestoreKeeps(l: Loaded, r: RunRecord, req: Request)
    requires WellFormed(l.data) && RunInv(l, r) && GuardReason(r, req).None? && HandleRestore(l.data, r, req).accepted
    ensures RunInv(l, HandleRestore(l.data, r, req).record) && Forward(r, HandleRestore(l.data, r, req).record)
  {
    hide WellFormed, TopologyAt, OutageOf, EventsFrom, CoreInv, Grounding, Workflow, Cached, Accounted, Logged;
    hide AssessedOnce, Invalidated, IsolatedIn, RecloseAvailable;
    RestoreCore(l, r, req.time);
    AcceptKeeps(l, r, RestoredRecord(l.data, r, req.time), req.commandId, req.actor,
                SwitchingSpecs(BreakerId(l.data, r), None));
  }

  lemma AssessKeeps(l: Loaded, r: RunRecord, req: Request)
    requires WellFormed(l.data) && RunInv(l, r) && GuardReason(r, req).None? && HandleAssess(l, r, req).accepted
    requires FreshAssessment(r, req.commandId)
    ensures RunInv(l, HandleAssess(l, r, req).record) && Forward(r, HandleAssess(l, r, req).record)
  {
    hide WellFormed, TopologyAt, OutageOf, EventsFrom, CoreInv, RunInv, InputsFor, Assess, FreshAssessment;
    RunnableRun(l, r);
    AssessCore(l, r, req.time, req.commandId);
    var s := AssessedRecord(l, r, req.time, req.commandId);
    var a := s.assessments[|s.assessments|-1];
    AcceptKeeps(l, r, s, req.commandId, req.actor,
                [EventSpec(if a.candidate.Some? then CandidateIdentified
                                                     else CandidateAbsent, TieOf(a), None, Some(a.id)),
                 EventSpec(Assessed, TieOf(a), None, Some(a.id))]);
    AssessNetwork(l, r, req.time);
  }

  lemma AssessNetwork(l: Loaded, r: RunRecord, time: int)
    requires Runnable(l.data, r) && AssessGate(l.data, r, time)
    ensures Order(r.run.network) <= 4
  {
    hide GateTopology, RecloseAvailable, IsolatedIn, LastInvalidated;
  }

  lemma ExecuteKeeps(l: Loaded, r: RunRecord, req: Request)
    requires WellFormed(l.data) && RunInv(l, r) && GuardReason(r, req).None?
    ensures RunInv(l, HandleExecute(l, r, req).record) && Forward(r, HandleExecute(l, r, req).record)
  {
    hide WellFormed, TopologyAt, OutageOf, EventsFrom, CoreInv, Grounding, Workflow, Cached, Accounted, Logged;
    hide AssessedOnce, Invalidated, Projection, BindingMatches;
    var step := HandleExecute(l, r, req);
    if step.accepted {
      ExecuteCore(l, r, req.time);
      AcceptKeeps(l, r, ExecutedRecord(l.data, r, req.time), req.commandId, req.actor,
                  SwitchingSpecs(CurrentTie(r), Some(r.assessments[|r.assessments|-1].id)));
    } else if step.reason == AssessmentNoLongerValid {
      InvalidateKeeps(l, r, req);
    }
  }

  lemma ResetKeeps(l: Loaded, r: RunRecord, command: nat, actor: string, time: int)
    requires RunInv(l, r) && time >= r.run.time && r.run.status != RunClosed
    ensures RunInv(l, Close(r, command, actor, time)) && Forward(r, Close(r, command, actor, time))
  {
    hide RunInv, CloseSpecs, Record;
    CloseKeeps(l, r, command, actor, time);
    CloseShape(r, command, actor, time);
  }

  lemma HandleKeeps(l: Loaded, def: Definition, r: RunRecord, req: Request)
    requires WellFormed(l.data) && RunInv(l, r) && GuardReason(r, req).None? && WellShaped(req) && req.kind != ResetRun
    requires FreshAssessment(r, req.commandId)
    ensures RunInv(l, Handle(l, def, r, req).record) && Forward(r, Handle(l, def, r, req).record)
  {
    hide WellFormed, RunInv, Forward, HandleFault, HandleIsolation, HandleRestore, HandleAssess, HandleExecute;
    hide HandleAcknowledge, FreshAssessment;
    RunnableRun(l, r);
    RejectedRecord(l, def, r, req);
    assert Forward(r, r) by { ForwardReflexive(r); }
    match req.kind
    case InitiateFault => if Handle(l, def, r, req).accepted { FaultKeeps(l, r, req); }
    case AcknowledgeAlarm => if Handle(l, def, r, req).accepted { AcknowledgeKeeps(l, r, req); }
    case OperateIsolationDevice => if Handle(l, def, r, req).accepted { IsolationKeeps(l, def, r, req); }
    case RestoreNormalSource => if Handle(l, def, r, req).accepted { RestoreKeeps(l, r, req); }
    case AssessRestoration => if Handle(l, def, r, req).accepted { AssessKeeps(l, r, req); }
    case ExecuteRestoration => ExecuteKeeps(l, r, req);
  }

  lemma ForwardReflexive(r: RunRecord)
    ensures Forward(r, r)
  {
  }

  /** A rejected command leaves the run's record unchanged, except that a lost assessment is
      recorded as such: one event and one invalidation more, and time moves on. */
  lemma RejectedRecord(l: Loaded, def: Definition, r: RunRecord, req: Request)
    requires Runnable(l.data, r) && WellShaped(req)
    ensures var step := StepOf(l, def, r, req);
            !step.accepted ==>
              || (step.record == r && step.newEvents == [])
              || (&& req.kind == ExecuteRestoration && step.reason == AssessmentNoLongerValid && Executable(r)
                  && step.record == InvalidatedRecord(r, req)
                  && |step.record.events| == |r.events| + 1 && |step.record.invalidations| == |r.invalidations| + 1
                  && step.record == r.(run := r.run.(time := req.time), events := step.record.events,
                                       invalidations := step.record.invalidations))
    ensures req.kind != ResetRun && !Handle(l, def, r, req).accepted && req.kind != ExecuteRestoration
            ==> Handle(l, def, r, req).record == r
  {
    hide GateTopology, TopologyAt, OutageOf, Projection, RecloseAvailable, TargetAvailable, BindingMatches;
    hide IsolatedRecord, FaultedRecord, RestoredRecord, AssessedRecord, ExecutedRecord, RestoreGate, AssessGate, Close;
  }

  /** Every command, accepted or not, keeps the run invariant, only appends to the run's history,
      and never moves its time, revision or network state backwards. */
  lemma StepKeepsRun(l: Loaded, def: Definition, r: RunRecord, req: Request)
    requires WellFormed(l.data) && RunInv(l, r) && WellShaped(req) && FreshAssessment(r, req.commandId)
    ensures RunInv(l, StepOf(l, def, r, req).record) && Forward(r, StepOf(l, def, r, req).record)
  {
    hide WellFormed, RunInv, Forward, Handle, FreshAssessment, Close;
    RunnableRun(l, r);
    ForwardReflexive(r);
    if GuardReason(r, req).None? {
      if req.kind == ResetRun { ResetKeeps(l, r, req.commandId, req.actor, req.time); }
      else { HandleKeeps(l, def, r, req); }
    }
  }

  lemma RunnableRun(l: Loaded, r: RunRecord)
    requires RunInv(l, r)
    ensures Runnable(l.data, r)
  {
  }
}
