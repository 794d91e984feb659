/** Every command keeps the run invariant. */
module RunSteps {
  import opened Ids
  import opened Configuration
  import opened Topology
  import opened Outage
  import opened Restoration
  import opened TopologyFacts
  import opened Derivation
  import opened RestorationFacts
  import opened ExecutionFacts
  import opened Scenario
  import opened Handlers
  import opened RunInvariant
  import opened RunPreservation

  lemma AcceptKeeps(l: Loaded, r: RunRecord, s: RunRecord, command: nat, actor: string, specs: seq<EventSpec>)
    requires RunInv(l, r) && CoreInv(l, s) && s.events == r.events
    requires r.run.time <= s.run.time && r.run.revision <= s.run.revision
    ensures RunInv(l, Record(s, command, actor, specs))
    ensures r.events <= Record(s, command, actor, specs).events
  {
    hide Grounding, Workflow, Cached, Accounted, AssessedOnce, Invalidated, Runnable;
    RunInvParts(l, r);
    RecordLogged(s, r.run.time, r.run.revision, command, actor, specs);
    CoreIgnoresEvents(l, s, Record(s, command, actor, specs).events);
  }

  /** Switching one device at a time not before the run's keeps telemetry grounded. */
  lemma SwitchGrounded(c: Network, r: RunRecord, run: RunContext, d: Id, value: SwitchState)
    requires Grounding(c, r) && d in DeviceIds(c) && r.run.revision in r.outages
    requires run.time >= r.run.time && run.initialTime == r.run.initialTime && run.fault == r.run.fault
             && run.sources == r.run.sources
    ensures Grounding(c, Advance(c, r, run, Refresh(r.telemetry, d, value, run.time, run.revision)))
  {
    hide TopologyAt, OutageOf;
  }

  lemma BreakerIsDevice(c: Network, r: RunRecord)
    requires WellFormed(c) && Runnable(c, r)
    ensures BreakerId(c, r) in DeviceIds(c) && BreakerId(c, r) in BreakerIds(c)
  {
    hide WellFormed, Validated;
    WellFormedFacts(c);
    BreakersAreDevices(c);
  }

  // ---------------------------------------------------------------- fault

  lemma FaultCore(l: Loaded, r: RunRecord, req: Request)
    requires WellFormed(l.data) && RunInv(l, r) && req.time >= r.run.time && r.run.status != RunClosed
    requires HandleFault(l.data, r, req).accepted
    ensures CoreInv(l, FaultedRecord(l.data, r, req))
  {
    hide WellFormed, TopologyAt, OutageOf, Assess, Cached, Accounted, LiveNow, NormalPoints, DeviceIds, SourceIds;
    hide SectionIds, AffectedFeeder;
    RunInvParts(l, r);
    var c := l.data;
    var b := BreakerId(c, r);
    var run := r.run.(time := req.time, revision := r.run.revision + 1, stage := PostFault,
                      network := N1, status := Active, faultActive := true);
    var points := Refresh(r.telemetry, b, Open, req.time, run.revision);
    var s := Advance(c, r, run, points);
    BreakerIsDevice(c, r);
    SwitchGrounded(c, r, run, b, Open);
    AdvanceOutage(c, r, run, points);
    OpeningShrinks(c, r.telemetry, r.run.sources, b, req.time, run.revision);
    OpeningAccounted(c, r, run, points);
    CacheFrame(c, s, FaultedRecord(c, r, req));
    AccountFrame(s, FaultedRecord(c, r, req));
  }

  // ---------------------------------------------------------------- acknowledgement

  /** Moving the run's time forward, with nothing switched, keeps the invariant. */
  lemma WaitCore(l: Loaded, r: RunRecord, s: RunRecord)
    requires WellFormed(l.data) && RunInv(l, r)
    requires s.run == r.run.(time := s.run.time) && s.run.time >= r.run.time
    requires s == r.(run := s.run, alarms := s.alarms)
    requires |s.alarms| == |r.alarms| && (|r.alarms| == 1 && r.alarms[0].active ==> s.alarms[0].active)
    ensures CoreInv(l, s)
  {
    hide WellFormed, TopologyAt, OutageOf, Assess, Cached, Accounted, LiveNow, NormalPoints, DeviceIds, SourceIds;
    hide SectionIds, AffectedFeeder;
    RunInvParts(l, r);
    CacheFrame(l.data, r, s);
    AccountFrame(r, s);
    SameRunSameInputs(l, r, s);
    if r.run.status != RunClosed && |r.invalidations| > 0 {
      StillNotPermitted(l, r, s.run.time);
    }
  }

  lemma ProjectionGrounded(l: Loaded, r: RunRecord, time: int, id: nat, sequence: nat)
    requires WellFormed(l.data) && Grounding(l.data, r) && r.run.faultActive
    ensures Grounded(l.data, InputsFor(l.data, r, time, id, sequence))
  {
    hide WellFormed, TopologyAt, OutageOf, LiveNow;
    OutageNow(l.data, r.telemetry, r.run.sources, ActiveFault(r.run), time, None);
  }

  /** Once the run's evidence no longer permits, it does not permit at any later time either. */
  lemma StillNotPermitted(l: Loaded, r: RunRecord, time: int)
    requires WellFormed(l.data) && Grounding(l.data, r) && r.run.faultActive && time >= r.run.time
    requires Projection(l, r, r.run.time).outcome != Permitted
    ensures Projection(l, r, time).outcome != Permitted
  {
    hide WellFormed, TopologyAt, OutageOf, Assess, Grounded, DeviceIds, SourceIds;
    if Projection(l, r, time).outcome == Permitted {
      ProjectionGrounded(l, r, r.run.time, 0, 1);
      ProjectionGrounded(l, r, time, 0, 1);
      PermittedEarlier(l, InputsFor(l.data, r, r.run.time, 0, 1), InputsFor(l.data, r, time, 0, 1));
    }
  }

  lemma AcknowledgeCore(l: Loaded, r: RunRecord, req: Request, alarms: seq<Alarm>)
    requires WellFormed(l.data) && RunInv(l, r) && req.time >= r.run.time
    requires |alarms| == |r.alarms| && (|r.alarms| == 1 && r.alarms[0].active ==> alarms[0].active)
    ensures CoreInv(l, r.(alarms := alarms, run := r.run.(time := req.time)))
  {
    hide RunInv, CoreInv, WellFormed;
    WaitCore(l, r, r.(alarms := alarms, run := r.run.(time := req.time)));
  }

  // ---------------------------------------------------------------- isolation

  lemma TargetIsDevice(c: Network, def: Definition, r: RunRecord, time: int, target: Option<Id>)
    requires WellFormed(c) && Grounding(c, r) && target.Some?
    requires TargetAvailable(def, r.run, GateTopology(c, r, time), target)
    ensures r.run.network == N1 && target.value in BoundarySet(c, r.run.fault) && target.value in DeviceIds(c)
  {
    hide WellFormed, Validated, EvaluationOf, FirstEvaluationOf, Evaluations, BoundarySet, Boundaries, Sort;
    hide SectionStates, RadialityOf, ImproperComponents, DistributionGraph, FeederLoadOf, SectionPaths;
    hide AvailableFeeders, ActiveFeeders;
    WellFormedFacts(c);
    var t := GateTopology(c, r, time);
    assert t.proof.Some? ==> t.proof.value.boundaries == Boundaries(c, r.run.fault);
    if r.run.mode == Formal { NextTargetListed(OrderedBoundaries(def, r.run.mode, t.proof.value.boundaries),
                                               t.proof.value.evaluations); }
    OrderedMembers(def, r.run.mode, t.proof.value.boundaries);
    BoundaryMembers(c, r.run.fault);
    BoundariesAreDevices(c, r.run.fault);
  }

  lemma BoundariesAreDevices(c: Network, fault: Id)
    requires Validated(c)
    ensures BoundarySet(c, fault) <= DeviceIds(c)
  {
    hide Validated;
    forall e | e in c.edges ensures DeviceEnd(c, e) in DeviceIds(c) { EdgeEnds(c, e); }
  }

  lemma OrderedMembers(def: Definition, mode: Mode, boundaries: seq<Id>)
    ensures forall d :: d in OrderedBoundaries(def, mode, boundaries) <==> d in boundaries
  {
    hide Sort;
    if mode == Exploration { SortElements(boundaries, IdLeq); }
    else { SortElements(boundaries, ProcedureOrder(def.sequence)); }
    assert forall d :: d in OrderedBoundaries(def, mode, boundaries) <==> d in boundaries;
  }

  lemma {:induction false} NextTargetListed(ordered: seq<Id>, evaluations: seq<BoundaryEvaluation>)
    ensures NextTarget(ordered, evaluations).Some? ==>
              NextTarget(ordered, evaluations).value in ordered
              && EvaluationOf(evaluations, NextTarget(ordered, evaluations).value).Some?
              && EvaluationOf(evaluations, NextTarget(ordered, evaluations).value).value.status == ProvenClosed
  {
    if ordered != [] {
      NextTargetListed(ordered[1..], evaluations);
      assert forall d | d in ordered[1..] :: d in ordered;
    }
  }

  lemma IsolationCore(l: Loaded, r: RunRecord, d: Id, time: int)
    requires WellFormed(l.data) && RunInv(l, r) && time >= r.run.time && r.run.status != RunClosed
    requires r.run.network == N1 && d in DeviceIds(l.data)
    ensures CoreInv(l, IsolatedRecord(l.data, r, d, time))
  {
    hide WellFormed, TopologyAt, OutageOf, Assess, Cached, Accounted, LiveNow, NormalPoints, DeviceIds, SourceIds;
    hide SectionIds, AffectedFeeder, IsolatedIn;
    RunInvParts(l, r);
    var c := l.data;
    var s := IsolatedRecord(c, r, d, time);
    var points := Refresh(r.telemetry, d, Open, time, r.run.revision + 1);
    BreakerIsDevice(c, r);
    SwitchGrounded(c, r, s.run, d, Open);
    AdvanceOutage(c, r, s.run, points);
    OpeningShrinks(c, r.telemetry, r.run.sources, d, time, s.run.revision);
    OpeningAccounted(c, r, s.run, points);
  }

  // ---------------------------------------------------------------- normal source

  lemma RestoreCore(l: Loaded, r: RunRecord, time: int)
    requires WellFormed(l.data) && RunInv(l, r) && time >= r.run.time && r.run.status != RunClosed
    requires r.run.network == N2
    ensures CoreInv(l, RestoredRecord(l.data, r, time))
  {
    hide WellFormed, TopologyAt, OutageOf, Assess, Cached, Accounted, LiveNow, NormalPoints, DeviceIds, SourceIds;
    hide SectionIds, AffectedFeeder;
    RunInvParts(l, r);
    var c := l.data;
    var s := RestoredRecord(c, r, time);
    var b := BreakerId(c, r);
    var points := Refresh(r.telemetry, b, Closed, time, r.run.revision + 1);
    BreakerIsDevice(c, r);
    SwitchGrounded(c, r, s.run, b, Closed);
    AdvanceOutage(c, r, s.run, points);
    ClosingGrows(c, r.telemetry, r.run.sources, b, time, s.run.revision);
    ClosingAccounted(c, r, s.run, points);
  }

  // ---------------------------------------------------------------- assessment

  /** The outcome, candidate and evidence of an assessment do not depend on its identity. */
  lemma OutcomeIgnoresIdentity(l: Loaded, r: RunRecord, time: int, id: nat, sequence: nat)
    ensures var a := Assess(l, InputsFor(l.data, r, time, id, sequence)); var p := Projection(l, r, time);
            && a.outcome == p.outcome && a.candidate == p.candidate && a.telemetry == p.telemetry
            && a.sources == p.sources && a.runId == p.runId && a.configurationId == p.configurationId
            && a.revision == p.revision && a.calculation == p.calculation
            && a.id == id && a.sequence == sequence && a.time == time && a.runId == r.run.id
  {
    hide TopologyAt, OutageOf, TopologyOf, CandidateOf, CapacityPermissive, AlternatePermissive, RadialPermissive;
    var a, b := InputsFor(l.data, r, time, id, sequence), InputsFor(l.data, r, time, 0, 1);
    assert SameState(a, b);
    SameStateCandidate(l, a, b);
    if CandidateOf(l, a).Some? {
      var k := CandidateOf(l, a).value;
      SamePermissives(l.data, a, b, k);
      assert CalculationOf(l.data, a, k) == CalculationOf(l.data, b, k);
      assert PermissivesOf(l.data, a, k) == PermissivesOf(l.data, b, k);
    }
  }

  /** Whether an assessment identifier is already taken in this run. */
  ghost predicate FreshAssessment(r: RunRecord, id: nat) {
    forall k | 0 <= k < |r.assessments| :: r.assessments[k].id != id
  }

  /** A run may be assessed again only after its single assessment was invalidated by lost evidence. */
  lemma ReassessmentIsSecond(l: Loaded, r: RunRecord)
    requires RunInv(l, r) && r.run.status != RunClosed && r.run.network == N4 && LastInvalidated(r)
    ensures |r.assessments| == 1 && |r.invalidations| == 1 && Projection(l, r, r.run.time).outcome != Permitted
  {
    hide Projection, Runnable, Cached, Accounted, Workflow, Grounding, Logged, Faithful;
    RunInvParts(l, r);
    var i :| i in r.invalidations && i.assessment == r.assessments[|r.assessments|-1].id;
    var k :| 0 <= k < |r.invalidations| && r.invalidations[k] == i;
    assert r.invalidations[k].assessment == r.assessments[k].id;
  }

  lemma {:induction false} MaxAssessmentIsMax(assessments: seq<Assessment>)
    ensures forall k | 0 <= k < |assessments| :: assessments[k].sequence <= MaxAssessmentSequence(assessments)
  {
    if assessments != [] { MaxAssessmentIsMax(assessments[..|assessments|-1]); }
  }

  lemma AssessCore(l: Loaded, r: RunRecord, time: int, id: nat)
    requires WellFormed(l.data) && RunInv(l, r) && time >= r.run.time && r.run.status != RunClosed
    requires AssessGate(l.data, r, time) && FreshAssessment(r, id)
    ensures CoreInv(l, AssessedRecord(l, r, time, id))
  {
    hide WellFormed, TopologyAt, OutageOf, Assess, Cached, Accounted, LiveNow, NormalPoints, DeviceIds, SourceIds;
    hide SectionIds, AffectedFeeder, IsolatedIn, RecloseAvailable, Projection, InputsFor, LastInvalidated;
    RunInvParts(l, r);
    var c := l.data;
    var s := AssessedRecord(l, r, time, id);
    CacheFrame(c, r, s);
    AccountFrame(r, s);
    SameRunSameInputs(l, r, s);
    var sequence := MaxAssessmentSequence(r.assessments) + 1;
    OutcomeIgnoresIdentity(l, r, time, id, sequence);
    var a := s.assessments[|s.assessments|-1];
    assert a == Assess(l, InputsFor(c, r, time, id, sequence));
    assert Faithful(l, s, a);
    if r.run.network == N4 {
      ReassessmentIsSecond(l, r);
      StillNotPermitted(l, r, time);
      assert Faithful(l, r, r.assessments[0]);
      assert Faithful(l, s, s.assessments[0]);
    }
  }

  // ---------------------------------------------------------------- execution and loss of evidence

  lemma InvalidationsAreIds(r: RunRecord)
    ensures forall k | 0 <= k < |r.invalidations| :: r.invalidations[k].assessment in InvalidatedIds(r)
  {
    forall k | 0 <= k < |r.invalidations| ensures r.invalidations[k].assessment in InvalidatedIds(r) {
      assert r.invalidations[k] in r.invalidations;
    }
  }

  /** An executable run has exactly one assessment and no invalidation. */
  lemma ExecutableIsFirst(l: Loaded, r: RunRecord)
    requires RunInv(l, r) && Executable(r) && r.run.status != RunClosed
    ensures |r.assessments| == 1 && r.invalidations == []
  {
    hide Projection, Runnable, Cached, Accounted, Workflow, Grounding, Logged, Faithful;
    RunInvParts(l, r);
    InvalidationsAreIds(r);
  }

  /** Between assessment and execution only the outcome can change: the binding holds exactly when
      the evidence still permits. */
  lemma BindingIffStillPermitted(l: Loaded, r: RunRecord, time: int)
    requires WellFormed(l.data) && RunInv(l, r) && Executable(r) && r.run.status != RunClosed
    ensures BindingMatches(r.assessments[|r.assessments|-1], Projection(l, r, time))
            <==> Projection(l, r, time).outcome == Permitted
    ensures Projection(l, r, time).candidate == r.assessments[|r.assessments|-1].candidate
    ensures Projection(l, r, time).telemetry == r.assessments[|r.assessments|-1].telemetry
  {
    hide WellFormed, TopologyAt, OutageOf, Cached, Accounted, LiveNow, NormalPoints, DeviceIds, SourceIds, SectionIds;
    hide AffectedFeeder, Projection, InputsFor, Assess, Grounded, Invalidated, Logged, SameState;
    RunInvParts(l, r);
    ExecutableIsFirst(l, r);
    var a := r.assessments[0];
    assert Faithful(l, r, a);
    OutcomeIgnoresIdentity(l, r, a.time, a.id, a.sequence);
    ProjectionsAgree(l, r, a.time, time);
  }

  lemma ProjectionsAgree(l: Loaded, r: RunRecord, t1: int, t2: int)
    requires WellFormed(l.data) && Grounding(l.data, r) && r.run.faultActive
    ensures var p, q := Projection(l, r, t1), Projection(l, r, t2);
            p.candidate == q.candidate && p.telemetry == q.telemetry && p.sources == q.sources
            && p.runId == q.runId && p.configurationId == q.configurationId && p.revision == q.revision
  {
    hide WellFormed, TopologyAt, OutageOf, Grounded, SameState, DeviceIds, SourceIds, TopologyOf, CandidateOf;
    hide PermissivesOf;
    var a, b := InputsFor(l.data, r, t1, 0, 1), InputsFor(l.data, r, t2, 0, 1);
    ProjectionGrounded(l, r, t1, 0, 1);
    ProjectionGrounded(l, r, t2, 0, 1);
    GroundedSameState(l.data, a, b);
    SameStateCandidate(l, a, b);
  }

  lemma InvalidateKeeps(l: Loaded, r: RunRecord, req: Request)
    requires WellFormed(l.data) && RunInv(l, r) && req.time >= r.run.time && r.run.status != RunClosed
    requires Executable(r) && !BindingMatches(r.assessments[|r.assessments|-1], Projection(l, r, req.time))
    ensures RunInv(l, InvalidatedRecord(r, req))
    ensures r.events <= InvalidatedRecord(r, req).events
  {
    hide WellFormed, TopologyAt, OutageOf, Assess, Cached, Accounted, LiveNow, NormalPoints, DeviceIds, SourceIds;
    hide SectionIds, AffectedFeeder, Projection, InputsFor, BindingMatches, Grounding, Workflow, Logged, Runnable;
    hide AssessedOnce;
    ExecutableIsFirst(l, r);
    BindingIffStillPermitted(l, r, req.time);
    var moved := r.(run := r.run.(time := req.time));
    WaitCore(l, r, moved);
    var s := InvalidatedRecord(r, req);
    var recorded := Record(moved, req.commandId, req.actor,
                           [EventSpec(AssessmentInvalidated, Some(CurrentTie(r)), None,
                                      Some(r.assessments[|r.assessments|-1].id))]);
    AcceptKeeps(l, r, moved, req.commandId, req.actor,
                [EventSpec(AssessmentInvalidated, Some(CurrentTie(r)), None,
                           Some(r.assessments[|r.assessments|-1].id))]);
    assert s == recorded.(invalidations := s.invalidations);
    InvalidationFrame(l, recorded, s);
    SameRunSameInputs(l, r, s);
    assert Invalidated(l, s);
  }

  /** Adding invalidations touches nothing else. */
  lemma InvalidationFrame(l: Loaded, r: RunRecord, s: RunRecord)
    requires RunInv(l, r) && s == r.(invalidations := s.invalidations) && Order(r.run.network) >= 4
    ensures Runnable(l.data, s) && Grounding(l.data, s) && Workflow(l.data, s) && Cached(l.data, s) && Accounted(s)
            && Logged(s) && AssessedOnce(l, s)
  {
    hide TopologyAt, OutageOf, Assess, LiveNow, NormalPoints, InputsFor, Cached, Accounted, Invalidated;
    RunInvParts(l, r);
    CacheFrame(l.data, r, s);
    AccountFrame(r, s);
    SameRunSameInputs(l, r, s);
    forall k | 0 <= k < |s.assessments| && s.run.network == N4 ensures Faithful(l, s, s.assessments[k]) {
      assert Faithful(l, r, r.assessments[k]);
    }
  }

  lemma ExecuteCore(l: Loaded, r: RunRecord, time: int)
    requires WellFormed(l.data) && RunInv(l, r) && time >= r.run.time && r.run.status != RunClosed
    requires Executable(r) && CurrentTie(r) in r.telemetry
    ensures CoreInv(l, ExecutedRecord(l.data, r, time))
  {
    hide WellFormed, TopologyAt, OutageOf, Assess, Cached, Accounted, LiveNow, NormalPoints, DeviceIds, SourceIds;
    hide SectionIds, AffectedFeeder, IsolatedIn, Projection, Faithful;
    RunInvParts(l, r);
    var c := l.data;
    var s := ExecutedRecord(c, r, time);
    var d := CurrentTie(r);
    ExecutableIsFirst(l, r);
    var points := Refresh(r.telemetry, d, Closed, time, r.run.revision + 1);
    BreakerIsDevice(c, r);
    SwitchGrounded(c, r, s.run, d, Closed);
    AdvanceOutage(c, r, s.run, points);
    ClosingGrows(c, r.telemetry, r.run.sources, d, time, s.run.revision);
    ClosingAccounted(c, r, s.run, points);
  }

  // ---------------------------------------------------------------- closing and creating

  lemma ClosedCore(l: Loaded, r: RunRecord, time: int)
    requires RunInv(l, r) && time >= r.run.time && r.run.status != RunClosed
    ensures var s := r.(run := r.run.(time := time, status := RunClosed));
            Runnable(l.data, s) && Grounding(l.data, s) && Workflow(l.data, s) && Cached(l.data, s) && Accounted(s)
              && AssessedOnce(l, s)
  {
    hide TopologyAt, OutageOf, Assess, Cached, Accounted, LiveNow, NormalPoints, DeviceIds, SourceIds, SectionIds;
    hide AffectedFeeder, InputsFor, Invalidated, Logged;
    RunInvParts(l, r);
    var s := r.(run := r.run.(time := time, status := RunClosed));
    CacheFrame(l.data, r, s);
    AccountFrame(r, s);
    SameRunSameInputs(l, r, s);
    forall k | 0 <= k < |s.assessments| && s.run.network == N4 ensures Faithful(l, s, s.assessments[k]) {
      assert Faithful(l, r, r.assessments[k]);
    }
  }

  lemma LastStillStands(l: Loaded, r: RunRecord)
    requires AssessedOnce(l, r) && Invalidated(l, r) && |r.invalidations| < |r.assessments|
    ensures r.assessments[|r.assessments|-1].id !in InvalidatedIds(r)
  {
    hide Projection, Faithful;
    forall i | i in r.invalidations ensures i.assessment != r.assessments[|r.assessments|-1].id {
      var k :| 0 <= k < |r.invalidations| && r.invalidations[k] == i;
    }
  }

  lemma CloseInvalidates(l: Loaded, r: RunRecord, command: nat, actor: string, time: int)
    requires RunInv(l, r) && r.run.status != RunClosed
    ensures Invalidated(l, Close(r, command, actor, time))
  {
    hide Projection, Runnable, Cached, Accounted, Workflow, Grounding, Logged, Faithful, Record;
    RunInvParts(l, r);
    var s := Close(r, command, actor, time);
    CloseShape(r, command, actor, time);
    var n := |r.assessments| - 1;
    if n >= 0 {
      if |r.invalidations| == |r.assessments| {
        assert r.invalidations[n] in r.invalidations && r.invalidations[n].assessment == r.assessments[n].id;
        assert r.assessments[n].id in InvalidatedIds(r);
      } else {
        LastStillStands(l, r);
      }
    }
  }

  lemma CloseShape(r: RunRecord, command: nat, actor: string, time: int)
    ensures var s := Close(r, command, actor, time);
            && s.assessments == r.assessments && s.run == r.run.(time := time, status := RunClosed)
            && s.telemetry == r.telemetry && s.alarms == r.alarms && s.outages == r.outages
               && s.topologies == r.topologies
            && s.events == Record(r.(run := s.run), command, actor, CloseSpecs(r)).events
            && s.invalidations == (if LastToInvalidate(r).None? then r.invalidations
                                   else r.invalidations + [Invalidation(LastToInvalidate(r).value.id, r.run.revision,
                                     time, ByReset, MaxSequence(r.events) + 1)])
  {
    hide EventsFrom;
  }

  /** Closing a run keeps its history and invalidates each assessment exactly once. */
  lemma CloseKeeps(l: Loaded, r: RunRecord, command: nat, actor: string, time: int)
    requires RunInv(l, r) && time >= r.run.time && r.run.status != RunClosed
    ensures RunInv(l, Close(r, command, actor, time))
    ensures r.events <= Close(r, command, actor, time).events
  {
    hide TopologyAt, OutageOf, Assess, LiveNow, NormalPoints, InputsFor, Cached, Accounted, Invalidated, Logged, Close;
    hide Record, CloseSpecs, Faithful;
    RunInvParts(l, r);
    var s := Close(r, command, actor, time);
    var closed := r.(run := r.run.(time := time, status := RunClosed));
    CloseShape(r, command, actor, time);
    ClosedCore(l, r, time);
    CloseInvalidates(l, r, command, actor, time);
    CloseLogged(r, closed, command, actor);
    CacheFrame(l.data, closed, s);
    AccountFrame(closed, s);
    SameRunSameInputs(l, closed, s);
    assert Logged(s) by { LoggedFrame(Record(closed, command, actor, CloseSpecs(r)), s); }
    assert AssessedOnce(l, s) by { AssessedFrame(l, closed, s); }
  }

  lemma CloseLogged(r: RunRecord, closed: RunRecord, command: nat, actor: string)
    requires Logged(r) && closed == r.(run := closed.run) && r.run.time <= closed.run.time
             && closed.run.revision == r.run.revision
    ensures Logged(Record(closed, command, actor, CloseSpecs(r)))
    ensures r.events <= Record(closed, command, actor, CloseSpecs(r)).events
    ensures Record(closed, command, actor, CloseSpecs(r)).run == closed.run
  {
    RecordLogged(closed, r.run.time, r.run.revision, command, actor, CloseSpecs(r));
  }

  lemma LoggedFrame(r: RunRecord, s: RunRecord)
    requires Logged(r) && s.events == r.events && s.run == r.run
    ensures Logged(s)
  {
  }

  lemma AssessedFrame(l: Loaded, r: RunRecord, s: RunRecord)
    requires AssessedOnce(l, r) && s.assessments == r.assessments && s.run == r.run && s.telemetry == r.telemetry
    requires Order(r.run.network) < 4 ==> s.invalidations == []
    ensures AssessedOnce(l, s)
  {
    hide Assess, InputsFor;
    SameRunSameInputs(l, r, s);
    forall k | 0 <= k < |s.assessments| && s.run.network == N4 ensures Faithful(l, s, s.assessments[k]) {
      assert Faithful(l, r, r.assessments[k]);
    }
  }

  lemma NormalShape(c: Network, time: int)
    ensures NormalPoints(c, time).Keys == DeviceIds(c) && NormalSources(c).Keys == SourceIds(c)
    ensures forall d | d in NormalPoints(c, time) :: NormalPoints(c, time)[d].quality == Good
                                                     && NormalPoints(c, time)[d].updated == time
  {
  }

  lemma NewShape(l: Loaded, id: nat, mode: Mode, fault: Id, time: int, buildId: string, actor: string)
    ensures var r := NewRecord(l, id, mode, fault, time, buildId, actor);
            && r.run == RunContext(id, mode, l.configurationId, l.version, fault, time, time, 0, Normal, N0, buildId,
                                   Initialised, false, NormalSources(l.data))
            && r.telemetry == NormalPoints(l.data, time) && r.alarms == [] && 0 in r.outages
  {
    hide TopologyAt, OutageOf, EventsFrom, NormalPoints, NormalSources;
  }

  lemma NewParts(l: Loaded, id: nat, mode: Mode, fault: Id, time: int, buildId: string, actor: string)
    requires WellFormed(l.data) && fault in SectionIds(l.data)
    ensures var r := NewRecord(l, id, mode, fault, time, buildId, actor);
            Runnable(l.data, r) && Grounding(l.data, r) && Workflow(l.data, r)
  {
    hide WellFormed, Validated, NewRecord, AffectedFeeder, NormalPoints, NormalSources, DeviceIds, SourceIds;
    hide SectionIds, FeederConsistent;
    var c := l.data;
    WellFormedFacts(c);
    NewShape(l, id, mode, fault, time, buildId, actor);
    NormalShape(c, time);
    FaultBreakerIsDevice(c, fault);
  }

  lemma FaultBreakerIsDevice(c: Network, fault: Id)
    requires Validated(c) && fault in SectionIds(c)
    ensures AffectedFeeder(c, fault).Some? && AffectedFeeder(c, fault).value.breakerId in DeviceIds(c)
  {
    hide Validated, AffectedFeeder, SectionIds;
    FaultHasFeeder(c, fault);
    BreakersAreDevices(c);
    assert AffectedFeeder(c, fault).value.breakerId in BreakerIds(c);
  }

  lemma NewCache(l: Loaded, id: nat, mode: Mode, fault: Id, time: int, buildId: string, actor: string)
    requires WellFormed(l.data)
    ensures var r := NewRecord(l, id, mode, fault, time, buildId, actor);
            Cached(l.data, r) && Accounted(r)
  {
    hide WellFormed, TopologyAt, LiveNow, SortedZones, DeEnergised, ZonesIn, Customers, EventsFrom, NormalPoints;
    hide NormalSources;
    var c := l.data;
    OutageNow(c, NormalPoints(c, time), NormalSources(c), None, time, None);
    var r := NewRecord(l, id, mode, fault, time, buildId, actor);
    assert r.outages == map[0 := r.outages[0]];
    assert Deltas(r.outages, 0) == 0;
    assert 0 in r.outages && r.outages[0].affected == r.outages[0].affected;
  }

  /** A fresh run satisfies the invariant. */
  lemma NewKeeps(l: Loaded, id: nat, mode: Mode, fault: Id, time: int, buildId: string, actor: string)
    requires WellFormed(l.data) && fault in SectionIds(l.data)
    ensures RunInv(l, NewRecord(l, id, mode, fault, time, buildId, actor))
  {
    hide WellFormed, TopologyAt, OutageOf, Assess, Cached, Accounted, Runnable, Grounding, Workflow, NormalPoints;
    hide NormalSources;
    NewParts(l, id, mode, fault, time, buildId, actor);
    NewCache(l, id, mode, fault, time, buildId, actor);
    var r := NewRecord(l, id, mode, fault, time, buildId, actor);
    RecordLogged(r.(events := []), time, 0, id, actor, INITIAL_SPECS);
    assert r == Record(r.(events := []), id, actor, INITIAL_SPECS);
  }

  lemma FaultHasFeeder(c: Network, fault: Id)
    requires Validated(c) && fault in SectionIds(c)
    ensures AffectedFeeder(c, fault).Some? && AffectedFeeder(c, fault).value in c.feeders
  {
    assert Satisfies(c, OwnedSections);
    hide FeederConsistent, EdgeConsistent, ZonesConsistent, EntityIds;
    assert SectionById(c, fault).value in c.sections;
  }
}
