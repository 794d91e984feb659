/** Runs terminate: a measure that every accepted command strictly decreases. */
module Termination {
  import opened Ids
  import opened Configuration
  import opened Topology
  import opened Telemetry
  import opened Outage
  import opened Restoration
  import opened TopologyFacts
  import opened Derivation
  import opened Scenario
  import opened Handlers
  import opened RunInvariant
  import opened RunSteps
  import opened RunSafety

  /** Boundary devices of the fault that are still closed, not counting `b`. */
  function ClosedBoundaries(c: Network, fault: Id, points: map<Id, Point>, b: Id): set<Id> {
    set d | d in BoundarySet(c, fault) && d != b && d in points && points[d].value == Closed
  }

  function Isolations(c: Network, r: RunRecord): nat
    requires Runnable(c, r)
  {
    if Order(r.run.network) <= 1 then |ClosedBoundaries(c, r.run.fault, r.telemetry, BreakerId(c, r))| else 0
  }

  function Acknowledgements(r: RunRecord): nat {
    if r.run.network == N0 || (r.alarms != [] && !r.alarms[0].acknowledged) then 1 else 0
  }

  function Assessments(r: RunRecord): nat { if |r.assessments| <= 2 then 2 - |r.assessments| else 0 }

  /** The commands the run can still accept: its fault, its acknowledgement, one isolation for each
      closed boundary, its reclose, two assessments, its execution and its reset. */
  function Remaining(c: Network, r: RunRecord): nat
    requires Runnable(c, r)
  {
    (if r.run.network == N0 then 1 else 0) + Acknowledgements(r) + Isolations(c, r)
    + (if Order(r.run.network) <= 2 then 1 else 0) + Assessments(r)
    + (if r.run.network == N5 then 0 else 1) + (if r.run.status == RunClosed then 0 else 1)
  }

  lemma SmallerSet(A: set<Id>, B: set<Id>)
    requires A < B
    ensures |A| < |B|
  {
    assert B == A + (B - A) && B - A != {};
  }

  lemma FaultDecreases(l: Loaded, r: RunRecord, req: Request)
    requires RunInv(l, r) && GuardReason(r, req).None? && HandleFault(l.data, r, req).accepted
    ensures Runnable(l.data, HandleFault(l.data, r, req).record)
    ensures Remaining(l.data, HandleFault(l.data, r, req).record) < Remaining(l.data, r)
  {
    hide BoundarySet, TopologyAt, OutageOf, Cached, Accounted, Logged, AssessedOnce, Invalidated, Grounding, EventsFrom;
    var c, b, s := l.data, BreakerId(l.data, r), HandleFault(l.data, r, req).record;
    assert s.telemetry == r.telemetry[b := Point(Open, Good, req.time, r.run.revision + 1)];
    assert ClosedBoundaries(c, r.run.fault, s.telemetry, b) == ClosedBoundaries(c, r.run.fault, r.telemetry, b);
  }

  lemma AcknowledgeDecreases(l: Loaded, r: RunRecord, req: Request)
    requires RunInv(l, r) && GuardReason(r, req).None? && HandleAcknowledge(r, req).accepted
    ensures Runnable(l.data, HandleAcknowledge(r, req).record)
    ensures Remaining(l.data, HandleAcknowledge(r, req).record) < Remaining(l.data, r)
  {
    hide BoundarySet, TopologyAt, OutageOf, Cached, Accounted, Logged, AssessedOnce, Invalidated, Grounding, EventsFrom;
    hide ClosedBoundaries;
    RunInvParts(l, r);
  }

  /** An accepted isolation opens a boundary device that was closed. */
  lemma TargetIsClosed(c: Network, def: Definition, r: RunRecord, time: int, target: Option<Id>)
    requires WellFormed(c) && Grounding(c, r) && target.Some?
    requires TargetAvailable(def, r.run, GateTopology(c, r, time), target)
    ensures r.run.network == N1 && target.value in BoundarySet(c, r.run.fault)
    ensures target.value in r.telemetry && StatusAt(r.telemetry, target.value, time) == ProvenClosed
    ensures r.telemetry[target.value].value == Closed
  {
    hide WellFormed, EvaluationOf, FirstEvaluationOf, Evaluations, BoundarySet, Boundaries, OrderedBoundaries;
    hide SectionStates, RadialityOf, ImproperComponents, DistributionGraph, FeederLoadOf, SectionPaths;
    hide AvailableFeeders, ActiveFeeders, NextTarget, StatusOf, ObservationOf, ObservationsAt;
    TargetIsDevice(c, def, r, time, target);
    var t := GateTopology(c, r, time);
    var evaluations, o := t.proof.value.evaluations, ObservationsAt(r.telemetry, time);
    assert evaluations == Evaluations(t.proof.value.boundaries, o);
    EvaluationsFaithful(t.proof.value.boundaries, o);
    if r.run.mode == Formal {
      NextTargetListed(OrderedBoundaries(def, r.run.mode, t.proof.value.boundaries), evaluations);
      EvaluationFound(evaluations, target.value);
    } else {
      FirstEvaluationFound(evaluations, target.value);
    }
    StatusMeans(r.telemetry, target.value, time);
  }

  lemma EvaluationsFaithful(boundaries: seq<Id>, o: map<Id, Observation>)
    ensures forall e | e in Evaluations(boundaries, o) :: e == Evaluate(e.device, ObservationOf(o, e.device))
  {
  }

  lemma {:induction false} EvaluationFound(evaluations: seq<BoundaryEvaluation>, d: Id)
    ensures EvaluationOf(evaluations, d).Some? ==>
              EvaluationOf(evaluations, d).value in evaluations && EvaluationOf(evaluations, d).value.device == d
  {
    if evaluations != [] {
      var t := evaluations[..|evaluations|-1];
      EvaluationFound(t, d);
      assert forall e | e in t :: e in evaluations;
    }
  }

  lemma {:induction false} FirstEvaluationFound(evaluations: seq<BoundaryEvaluation>, d: Id)
    ensures FirstEvaluationOf(evaluations, d).Some? ==>
              FirstEvaluationOf(evaluations, d).value in evaluations
                && FirstEvaluationOf(evaluations, d).value.device == d
  {
    if evaluations != [] {
      FirstEvaluationFound(evaluations[1..], d);
      assert forall e | e in evaluations[1..] :: e in evaluations;
    }
  }

  lemma IsolationDecreases(l: Loaded, def: Definition, r: RunRecord, req: Request)
    requires WellFormed(l.data) && RunInv(l, r) && GuardReason(r, req).None? && WellShaped(req)
             && req.kind == OperateIsolationDevice
    requires HandleIsolation(l.data, def, r, req).accepted
    ensures Runnable(l.data, HandleIsolation(l.data, def, r, req).record)
    ensures Remaining(l.data, HandleIsolation(l.data, def, r, req).record) < Remaining(l.data, r)
  {
    hide WellFormed, BoundarySet, TopologyAt, OutageOf, Cached, Accounted, Logged, AssessedOnce, Invalidated, Grounding;
    hide EventsFrom, TargetAvailable, IsolatedIn;
    RunInvParts(l, r);
    var c, b, d, s := l.data, BreakerId(l.data, r), req.target.value, HandleIsolation(l.data, def, r, req).record;
    TargetIsClosed(c, def, r, req.time, req.target);
    assert s.telemetry == r.telemetry[d := Point(Open, Good, req.time, r.run.revision + 1)];
    var A, B := ClosedBoundaries(c, r.run.fault, s.telemetry, b), ClosedBoundaries(c, r.run.fault, r.telemetry, b);
    assert d in B && d !in A && A <= B;
    SmallerSet(A, B);
  }

  lemma RestoreDecreases(l: Loaded, r: RunRecord, req: Request)
    requires RunInv(l, r) && GuardReason(r, req).None? && HandleRestore(l.data, r, req).accepted
    ensures Runnable(l.data, HandleRestore(l.data, r, req).record)
    ensures Remaining(l.data, HandleRestore(l.data, r, req).record) < Remaining(l.data, r)
  {
    hide BoundarySet, TopologyAt, OutageOf, Cached, Accounted, Logged, AssessedOnce, Invalidated, Grounding, EventsFrom;
    hide RecloseAvailable, IsolatedIn;
  }

  lemma AssessDecreases(l: Loaded, r: RunRecord, req: Request)
    requires RunInv(l, r) && GuardReason(r, req).None? && HandleAssess(l, r, req).accepted
    requires RunInv(l, HandleAssess(l, r, req).record)
    ensures Remaining(l.data, HandleAssess(l, r, req).record) < Remaining(l.data, r)
  {
    hide BoundarySet, TopologyAt, OutageOf, Cached, Accounted, Logged, Invalidated, Grounding, EventsFrom;
    hide RecloseAvailable, IsolatedIn, InputsFor, Assess, Faithful, Projection, LastInvalidated;
    RunInvParts(l, r);
    RunInvParts(l, HandleAssess(l, r, req).record);
  }

  lemma ExecuteDecreases(l: Loaded, r: RunRecord, req: Request)
    requires RunInv(l, r) && GuardReason(r, req).None? && HandleExecute(l, r, req).accepted
    ensures Runnable(l.data, HandleExecute(l, r, req).record)
    ensures Remaining(l.data, HandleExecute(l, r, req).record) < Remaining(l.data, r)
  {
    hide BoundarySet, TopologyAt, OutageOf, Cached, Accounted, Logged, Invalidated, Grounding, EventsFrom, InputsFor;
    hide Projection, BindingMatches, Faithful;
  }

  lemma HandleDecreases(l: Loaded, def: Definition, r: RunRecord, req: Request)
    requires WellFormed(l.data) && RunInv(l, r) && GuardReason(r, req).None? && WellShaped(req) && req.kind != ResetRun
    requires FreshAssessment(r, req.commandId) && Handle(l, def, r, req).accepted
    ensures Runnable(l.data, Handle(l, def, r, req).record)
    ensures Remaining(l.data, Handle(l, def, r, req).record) < Remaining(l.data, r)
  {
    hide WellFormed, RunInv, Remaining, HandleFault, HandleIsolation, HandleRestore, HandleAssess, HandleExecute;
    hide HandleAcknowledge, FreshAssessment;
    RunnableRun(l, r);
    match req.kind
    case InitiateFault => FaultDecreases(l, r, req);
    case AcknowledgeAlarm => AcknowledgeDecreases(l, r, req);
    case OperateIsolationDevice => IsolationDecreases(l, def, r, req);
    case RestoreNormalSource => RestoreDecreases(l, r, req);
    case AssessRestoration =>
      HandleKeeps(l, def, r, req);
      RunnableRun(l, HandleAssess(l, r, req).record);
      AssessDecreases(l, r, req);
    case ExecuteRestoration => ExecuteDecreases(l, r, req);
  }

  lemma ResetDecreases(l: Loaded, r: RunRecord, command: nat, actor: string, time: int)
    requires Runnable(l.data, r) && r.run.status != RunClosed && Runnable(l.data, Close(r, command, actor, time))
    ensures Remaining(l.data, Close(r, command, actor, time)) < Remaining(l.data, r)
  {
    hide Close, ClosedBoundaries;
    CloseShape(r, command, actor, time);
  }

  /** Every accepted command strictly decreases what the run can still accept; a rejected one leaves
      it as it was. */
  lemma StepDecreases(l: Loaded, def: Definition, r: RunRecord, req: Request)
    requires WellFormed(l.data) && RunInv(l, r) && WellShaped(req) && FreshAssessment(r, req.commandId)
    ensures Runnable(l.data, StepOf(l, def, r, req).record)
    ensures StepOf(l, def, r, req).accepted ==> Remaining(l.data, StepOf(l, def, r, req).record) < Remaining(l.data, r)
    ensures !StepOf(l, def, r, req).accepted ==>
              Remaining(l.data, StepOf(l, def, r, req).record) == Remaining(l.data, r)
  {
    hide WellFormed, RunInv, Handle, FreshAssessment, Close, InvalidatedRecord, Executable, ClosedBoundaries;
    StepKeepsRun(l, def, r, req);
    RunnableRun(l, r);
    var step := StepOf(l, def, r, req);
    RunnableRun(l, step.record);
    RejectedRecord(l, def, r, req);
    if step.accepted {
      if req.kind == ResetRun { ResetDecreases(l, r, req.commandId, req.actor, req.time); }
      else { HandleDecreases(l, def, r, req); }
    }
  }

  /** At N1 the bound is six commands and one for each boundary still closed; the fault itself was the seventh. */
  lemma RemainingAtStart(l: Loaded, r: RunRecord)
    requires RunInv(l, r)
    ensures r.run.network == N0 ==> Remaining(l.data, r) <= 7
                                    + |ClosedBoundaries(l.data, r.run.fault, r.telemetry, BreakerId(l.data, r))|
    ensures r.run.network == N1 ==> Remaining(l.data, r) <= 6
                                    + |ClosedBoundaries(l.data, r.run.fault, r.telemetry, BreakerId(l.data, r))|
    ensures Order(r.run.network) >= 2 ==> Remaining(l.data, r) <= 6
  {
    hide ClosedBoundaries, Cached, Accounted, Logged, Invalidated, Grounding, Faithful;
  }
}
