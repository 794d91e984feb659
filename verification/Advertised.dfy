/** The actions a snapshot lists as available are the commands the handlers accept. */
module Advertised {
  import opened Ids
  import opened Configuration
  import opened Topology
  import opened Outage
  import opened Restoration
  import opened Derivation
  import opened Scenario
  import opened Handlers
  import opened RunInvariant
  import opened RunSteps
  import opened FaultSafety

  predicate Matches(a: Action, req: Request) {
    a.kind == req.kind && a.target == req.target && a.state == req.state && a.alarm == req.alarm
      && a.assessment == req.assessment
  }

  /** Some listed action offers this command. */
  ghost predicate Offered(actions: seq<Action>, req: Request) {
    exists a :: a in actions && a.available && Matches(a, req)
  }

  lemma OfferedConcat(xs: seq<Action>, ys: seq<Action>, req: Request)
    ensures Offered(xs + ys, req) <==> Offered(xs, req) || Offered(ys, req)
  {
    if Offered(xs, req) {
      var a :| a in xs && a.available && Matches(a, req);
      assert a in xs + ys;
    }
    if Offered(ys, req) {
      var a :| a in ys && a.available && Matches(a, req);
      assert a in xs + ys;
    }
  }

  lemma {:induction false} AlarmOffered(alarms: seq<Alarm>, mutable: bool, req: Request)
    ensures Offered(AlarmActions(alarms, mutable), req) <==>
              && mutable && req.kind == AcknowledgeAlarm && req.target.None? && req.state.None? && req.assessment.None?
              && exists k :: 0 <= k < |alarms| && Acknowledgeable(alarms[k]) && req.alarm == Some(alarms[k].id)
  {
    if alarms != [] {
      AlarmOffered(alarms[1..], mutable, req);
      var head := if Acknowledgeable(alarms[0]) then [Action(AcknowledgeAlarm, None, None, Some(alarms[0].id), None,
                                                             mutable)] else [];
      OfferedConcat(head, AlarmActions(alarms[1..], mutable), req);
      if Acknowledgeable(alarms[0]) { assert head[0] in head; }
      forall k | 0 <= k < |alarms| - 1 ensures alarms[1..][k] == alarms[k + 1] {}
      assert forall k | 0 < k < |alarms| :: alarms[k] == alarms[1..][k - 1];
    }
  }

  lemma {:induction false} IsolationOffered(def: Definition, run: RunContext, t: TopologyResult, devices: seq<Id>,
      mutable: bool, req: Request)
    ensures Offered(IsolationActions(def, run, t, devices, mutable), req) <==>
              && mutable && req.kind == OperateIsolationDevice && req.alarm.None? && req.assessment.None?
              && req.state == Some(Open) && req.target.Some? && req.target.value in devices
              && TargetAvailable(def, run, t, req.target)
  {
    hide TargetAvailable;
    if devices != [] {
      IsolationOffered(def, run, t, devices[1..], mutable, req);
      var head := [Action(OperateIsolationDevice, Some(devices[0]), Some(Open), None, None,
                          mutable && TargetAvailable(def, run, t, Some(devices[0])))];
      OfferedConcat(head, IsolationActions(def, run, t, devices[1..], mutable), req);
      assert head[0] in head;
    }
  }

  lemma AcknowledgementOffered(r: RunRecord, req: Request)
    ensures Offered(AcknowledgementActions(r), req) <==>
              && r.run.status != RunClosed && req.kind == AcknowledgeAlarm && req.target.None? && req.state.None?
                 && req.assessment.None?
              && exists k :: 0 <= k < |r.alarms| && Acknowledgeable(r.alarms[k]) && req.alarm == Some(r.alarms[k].id)
  {
    AlarmOffered(r.alarms, r.run.status != RunClosed, req);
  }

  lemma SingleOffered(l: Loaded, r: RunRecord, req: Request)
    requires Runnable(l.data, r) && WellShaped(req)
    ensures Offered(SingleActions(l, r), req) <==>
              && r.run.status != RunClosed
              && ((req.kind == RestoreNormalSource && req.target == Some(BreakerId(l.data, r))
                   && req.state == Some(Closed)
                   && RestoreGate(l.data, r, r.run.time))
                  || (req.kind == AssessRestoration && AssessGate(l.data, r, r.run.time))
                  || (req.kind == ExecuteRestoration && r.run.network == N4 && CurrentlyExecutable(l, r)
                      && req.assessment == Some(r.assessments[|r.assessments|-1].id))
                  || req.kind == ResetRun)
  {
    hide RestoreGate, AssessGate, CurrentlyExecutable;
    var last := SingleActions(l, r);
    assert last == [last[0], last[1], last[2], last[3]];
    assert last[0] in last && last[1] in last && last[2] in last && last[3] in last;
    assert CurrentlyExecutable(l, r) ==> r.assessments != [] by { ExecutableHasAssessment(l, r); }
  }

  lemma ExecutableHasAssessment(l: Loaded, r: RunRecord)
    ensures CurrentlyExecutable(l, r) ==> r.assessments != []
  {
    hide BindingMatches, Projection;
  }

  /** What the list of actions offers, command by command. */
  ghost predicate OfferedBy(l: Loaded, def: Definition, r: RunRecord, req: Request)
    requires Runnable(l.data, r) && WellShaped(req)
  {
    && r.run.status != RunClosed
    && match req.kind
       case InitiateFault => r.run.network == N0 && !r.run.faultActive
       case AcknowledgeAlarm => exists k :: 0 <= k < |r.alarms| && Acknowledgeable(r.alarms[k])
                                            && req.alarm == Some(r.alarms[k].id)
       case OperateIsolationDevice =>
         req.state == Some(Open) && req.target.value in ListedBoundaries(def, r.run,
           GateTopology(l.data, r, r.run.time))
         && TargetAvailable(def, r.run, GateTopology(l.data, r, r.run.time), req.target)
       case RestoreNormalSource =>
         req.target == Some(BreakerId(l.data, r)) && req.state == Some(Closed) && RestoreGate(l.data, r, r.run.time)
       case AssessRestoration => AssessGate(l.data, r, r.run.time)
       case ExecuteRestoration =>
         r.run.network == N4 && CurrentlyExecutable(l, r) && r.assessments != []
         && req.assessment == Some(r.assessments[|r.assessments|-1].id)
       case ResetRun => true
  }

  lemma OfferedMeans(l: Loaded, def: Definition, r: RunRecord, req: Request)
    requires Runnable(l.data, r) && WellShaped(req)
    ensures Offered(AllowedActions(l, def, r), req) <==> OfferedBy(l, def, r, req)
  {
    hide TargetAvailable, RestoreGate, AssessGate, CurrentlyExecutable, GateTopology, ListedBoundaries;
    hide AcknowledgementActions, IsolationActions, SingleActions, Acknowledgeable;
    var t := GateTopology(l.data, r, r.run.time);
    var isolation := IsolationActions(def, r.run, t, ListedBoundaries(def, r.run, t), r.run.status != RunClosed);
    var fault, alarms, last := FaultActions(r.run), AcknowledgementActions(r), SingleActions(l, r);
    OfferedConcat(fault, alarms, req);
    OfferedConcat(fault + alarms, isolation, req);
    OfferedConcat(fault + alarms + isolation, last, req);
    AcknowledgementOffered(r, req);
    IsolationOffered(def, r.run, t, ListedBoundaries(def, r.run, t), r.run.status != RunClosed, req);
    SingleOffered(l, r, req);
    ExecutableHasAssessment(l, r);
    assert Offered(fault, req) <==> fault[0].available && Matches(fault[0], req);
  }

  lemma TargetIsListed(c: Network, def: Definition, r: RunRecord, time: int, target: Option<Id>)
    requires target.Some? && TargetAvailable(def, r.run, GateTopology(c, r, time), target)
    ensures target.value in ListedBoundaries(def, r.run, GateTopology(c, r, time))
  {
    hide GateTopology, EvaluationOf, FirstEvaluationOf;
    var t := GateTopology(c, r, time);
    if t.proof.Some? {
      OrderedMembers(def, r.run.mode, t.proof.value.boundaries);
      NextTargetListed(OrderedBoundaries(def, r.run.mode, t.proof.value.boundaries), t.proof.value.evaluations);
    }
  }

  lemma AcknowledgeIff(r: RunRecord, req: Request)
    requires |r.alarms| <= 1
    ensures HandleAcknowledge(r, req).accepted <==>
              exists k :: 0 <= k < |r.alarms| && Acknowledgeable(r.alarms[k]) && req.alarm == Some(r.alarms[k].id)
  {
    var k := AlarmIndex(r.alarms, req.alarm);
    if k < |r.alarms| { assert Some(r.alarms[k].id) == req.alarm; }
  }

  lemma ExecuteIff(l: Loaded, r: RunRecord, req: Request)
    requires WellFormed(l.data) && RunInv(l, r) && r.run.status != RunClosed && req.time == r.run.time
    ensures HandleExecute(l, r, req).accepted <==>
              r.run.network == N4 && CurrentlyExecutable(l, r)
                && req.assessment == Some(r.assessments[|r.assessments|-1].id)
  {
    hide WellFormed, TopologyAt, OutageOf, Cached, Accounted, Logged, AssessedOnce, Invalidated, Grounding, EventsFrom;
    hide ExecutedRecord, BindingMatches, Projection, Workflow;
    if Executable(r) {
      BindingIffStillPermitted(l, r, req.time);
      if Projection(l, r, req.time).outcome == Permitted { ExecutionIsSafe(l, r, req.time); }
    }
  }

  lemma NormalBreaker(c: Network, r: RunRecord)
    requires Runnable(c, r) && r.telemetry == NormalPoints(c, r.run.initialTime)
    ensures BreakerId(c, r) in DeviceIds(c)
    ensures r.telemetry[BreakerId(c, r)].value == DeviceById(c, BreakerId(c, r)).value.normalState
  {
  }

  /** The affected breaker is normally closed, or the run is past its fault already. */
  predicate BreakerNormallyClosed(c: Network, r: RunRecord)
    requires Runnable(c, r)
  {
    r.run.network == N0 ==>
      var d := DeviceById(c, BreakerId(c, r));
      d.Some? && d.value.normalState == Closed
  }

  lemma FaultIff(l: Loaded, r: RunRecord, req: Request)
    requires RunInv(l, r)
    ensures HandleFault(l.data, r, req).accepted <==> r.run.network == N0 && !r.run.faultActive
                                                      && BreakerNormallyClosed(l.data, r)
  {
    hide TopologyAt, OutageOf, Cached, Accounted, Logged, AssessedOnce, Invalidated, Grounding, EventsFrom;
    hide NormalPoints, DeviceIds, FaultedRecord;
    RunInvParts(l, r);
    if r.run.network == N0 { NormalBreaker(l.data, r); }
  }

  lemma AcceptedIff(l: Loaded, def: Definition, r: RunRecord, req: Request)
    requires WellFormed(l.data) && RunInv(l, r) && WellShaped(req) && Runnable(l.data, r)
    requires req.expectedRevision == r.run.revision && req.time == r.run.time && req.kind != ResetRun
    ensures StepOf(l, def, r, req).accepted <==> r.run.status != RunClosed && Handle(l, def, r, req).accepted
  {
    hide Handle;
  }

  /** A command that is offered at the current revision and time is accepted, and the other way
      round; only INITIATE_FAULT also needs its breaker to be normally closed, which the list of
      actions does not look at. */
  lemma AdvertisedIffAccepted(l: Loaded, def: Definition, r: RunRecord, req: Request)
    requires WellFormed(l.data) && RunInv(l, r) && WellShaped(req) && Runnable(l.data, r)
    requires req.expectedRevision == r.run.revision && req.time == r.run.time
    ensures StepOf(l, def, r, req).accepted <==>
              Offered(AllowedActions(l, def, r), req) && (req.kind == InitiateFault
                                                          ==> BreakerNormallyClosed(l.data, r))
  {
    hide WellFormed, RunInv, AllowedActions, Runnable, TargetAvailable, RestoreGate, AssessGate, CurrentlyExecutable;
    hide GateTopology, ListedBoundaries, HandleFault, HandleAcknowledge, HandleExecute, IsolatedRecord, RestoredRecord;
    hide AssessedRecord, BreakerNormallyClosed, Acknowledgeable, Close, EventsFrom;
    OfferedMeans(l, def, r, req);
    if req.kind != ResetRun { AcceptedIff(l, def, r, req); }
    if r.run.status != RunClosed {
      match req.kind
      case InitiateFault => FaultIff(l, r, req);
      case AcknowledgeAlarm => AlarmsAreFew(l, r); AcknowledgeIff(r, req);
      case OperateIsolationDevice =>
        if TargetAvailable(def, r.run, GateTopology(l.data, r, r.run.time), req.target)
          { TargetIsListed(l.data, def, r, req.time, req.target); }
      case RestoreNormalSource => RestoreBreakerOpen(l, r, req.time);
      case AssessRestoration =>
      case ExecuteRestoration => ExecuteIff(l, r, req); ExecutableHasAssessment(l, r);
      case ResetRun =>
    }
  }

  lemma AlarmsAreFew(l: Loaded, r: RunRecord)
    requires RunInv(l, r)
    ensures |r.alarms| <= 1
  {
    RunInvParts(l, r);
  }

  lemma RestoreBreakerOpen(l: Loaded, r: RunRecord, time: int)
    requires RunInv(l, r)
    ensures RestoreGate(l.data, r, time) ==> r.telemetry[BreakerId(l.data, r)].value == Open
  {
    hide GateTopology, IsolatedIn, RecloseAvailable;
    RunInvParts(l, r);
  }
}
