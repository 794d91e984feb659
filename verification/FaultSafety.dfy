/** From isolation to the end of the run the fault section stays dead, and exactly when it does not. */
module FaultSafety {
  import opened Ids
  import opened Graphs
  import opened Configuration
  import opened Topology
  import opened Telemetry
  import opened Outage
  import opened Restoration
  import opened Energisation
  import opened TopologyFacts
  import opened Derivation
  import opened RestorationFacts
  import opened ExecutionFacts
  import opened Scenario
  import opened Handlers
  import opened RunInvariant
  import opened RunPreservation
  import opened RunSteps
  import opened RunSafety

  /** The affected breaker touches the fault section, so that reclosing it feeds the fault. */
  predicate BreakerAtFault(c: Network, r: RunRecord)
    requires Runnable(c, r)
  {
    BreakerId(c, r) in BoundarySet(c, r.run.fault)
  }

  predicate RecloseIsSafe(c: Network, r: RunRecord)
    requires Runnable(c, r)
  {
    r.run.mode == Exploration || !BreakerAtFault(c, r)
  }

  /** Every boundary is open from N2 on, unless FORMAL reclosed a breaker that is itself a boundary;
      and FORMAL has reclosed it from N3 on. */
  ghost predicate FaultIsDead(c: Network, r: RunRecord)
    requires Runnable(c, r)
  {
    && (r.run.network == N2 || (Order(r.run.network) >= 3 && RecloseIsSafe(c, r))
        ==> BoundariesOpen(c, r.run.fault, SwitchStates(r)))
    && (r.run.mode == Formal && Order(r.run.network) >= 3 ==> r.telemetry[BreakerId(c, r)].value == Closed)
  }

  lemma CloseOutsideBoundary(c: Network, fault: Id, points: map<Id, Point>, d: Id, time: int, revision: nat)
    requires BoundariesOpen(c, fault, StatesOf(points))
    ensures BoundariesOpen(c, fault, StatesOf(Refresh(points, d, Closed, time, revision)))
            <==> d !in BoundarySet(c, fault)
  {
    hide BoundarySet;
    RefreshStates(points, d, Closed, time, revision);
  }

  lemma IsolationDead(l: Loaded, r: RunRecord, d: Id, time: int)
    requires WellFormed(l.data) && RunInv(l, r) && r.run.network == N1
    ensures Runnable(l.data, IsolatedRecord(l.data, r, d, time))
            && FaultIsDead(l.data, IsolatedRecord(l.data, r, d, time))
  {
    hide WellFormed, TopologyAt, OutageOf, BoundarySet, Cached, Accounted, Logged, AssessedOnce, Invalidated;
    hide IsolatedIn, SectionIds, DeviceIds, SourceIds, BoundariesOpen, ProvenOpenAt;
    RunInvParts(l, r);
    IsolatedMeans(l.data, Refresh(r.telemetry, d, Open, time, r.run.revision + 1), r.run.sources, r.run.fault, time);
  }

  lemma RestoreDead(l: Loaded, r: RunRecord, time: int)
    requires WellFormed(l.data) && RunInv(l, r) && FaultIsDead(l.data, r) && RestoreGate(l.data, r, time)
    ensures Runnable(l.data, RestoredRecord(l.data, r, time)) && FaultIsDead(l.data, RestoredRecord(l.data, r, time))
  {
    hide WellFormed, TopologyAt, OutageOf, BoundarySet, Cached, Accounted, Logged, AssessedOnce, Invalidated;
    hide IsolatedIn, SectionIds, DeviceIds, SourceIds, BoundariesOpen, ProvenOpenAt, HealthyEnergised;
    RunInvParts(l, r);
    var c, b := l.data, BreakerId(l.data, r);
    var points := Refresh(r.telemetry, b, Closed, time, r.run.revision + 1);
    CloseOutsideBoundary(c, r.run.fault, r.telemetry, b, time, r.run.revision + 1);
    IsolatedMeans(c, points, r.run.sources, r.run.fault, time);
  }

  /** A closed device on the boundary of a section is linked to it. */
  lemma ClosedBoundaryLinks(c: Network, states: States, d: Id, fault: Id)
    requires WellFormed(c) && fault in SectionIds(c) && d in BoundarySet(c, fault) && IsClosed(states, d)
    ensures (d, fault) in Links(c, states)
  {
    hide WellFormed, Validated, SectionIds, DeviceIds, SourceIds;
    WellFormedFacts(c);
    IdsAreDisjoint(c);
    var e :| e in c.edges && fault in {e.a, e.b} && DeviceEnd(c, e) == d;
    EdgeEnds(c, e);
    assert fault == TerminalEnd(c, e) && fault !in SourceIds(c) && d !in SourceIds(c);
    assert {e.a, e.b} * SourceIds(c) == {};
    assert Conducts(c, states, e) && Link(c, e) == (d, fault);
  }

  /** When the closed affected breaker is a boundary and its source is available, the fault is fed. */
  lemma BreakerAtFaultFeedsIt(c: Network, r: RunRecord)
    requires WellFormed(c) && Runnable(c, r) && r.run.fault in SectionIds(c) && BreakerAtFault(c, r)
    requires r.telemetry[BreakerId(c, r)].value == Closed
    requires Topology.Available(c, r.run.sources, AffectedFeeder(c, r.run.fault).value)
    ensures r.run.fault in LiveOf(c, r)
  {
    hide WellFormed, Validated, BoundarySet, Links, Component, SectionIds, DeviceIds, AffectedFeeder, Supply;
    WellFormedFacts(c);
    var f, fault, states := AffectedFeeder(c, r.run.fault).value, r.run.fault, SwitchStates(r);
    FaultHasFeeder(c, fault);
    ClosedBoundaryLinks(c, states, f.breakerId, fault);
    ComponentClosed(Links(c, states), f.breakerId);
    assert Adj(Links(c, states), f.breakerId, fault);
    assert Feeds(c, states, r.run.sources, f, fault);
    FedIsSupply(c, states, r.run.sources, f, fault);
  }

  /** A feeder breaker that touches a section joins its source to that section and to nothing else. */
  lemma BreakerLinksFaultOnly(c: Network, states: States, f: Feeder, fault: Id, x: (Id, Id))
    requires WellFormed(c) && f in c.feeders && fault in SectionIds(c) && f.breakerId in BoundarySet(c, fault)
    requires x in Links(c, states) && x.0 == f.breakerId
    ensures x.1 == fault
  {
    hide WellFormed, Validated, SectionIds, SourceIds, BreakerIds;
    WellFormedFacts(c);
    IdsAreDisjoint(c);
    BreakersAreDevices(c);
    SourceIsTerminal(c, f);
    var i, j := DeviceEdges(c, f.breakerId);
    var e :| e in c.edges && Conducts(c, states, e) && Link(c, e) == x;
    var b :| b in c.edges && fault in {b.a, b.b} && DeviceEnd(c, b) == f.breakerId;
    var s := SourceEdge(c, f).value;
    EdgeEnds(c, e);
    EdgeEnds(c, b);
    EdgeEnds(c, s);
    assert TerminalEnd(c, b) == fault && TerminalEnd(c, s) == f.sourceId && f.sourceId != fault;
    assert e in {c.edges[i], c.edges[j]} && b in {c.edges[i], c.edges[j]} && s in {c.edges[i], c.edges[j]};
  }

  lemma SourceIsTerminal(c: Network, f: Feeder)
    requires Validated(c) && f in c.feeders
    ensures f.sourceId in SourceIds(c) && f.breakerId in DeviceIds(c)
  {
    assert Satisfies(c, ConsistentFeeders);
    assert FeederConsistent(c, f);
  }

  /** With every boundary but the affected breaker open, only the breaker's own source can feed the fault. */
  lemma OnlyBreakerFeeds(c: Network, states: States, sources: Sources, f: Feeder, fault: Id)
    requires WellFormed(c) && f in c.feeders && fault in SectionIds(c) && f.breakerId in BoundarySet(c, fault)
    requires forall d | d in BoundarySet(c, fault) && d != f.breakerId :: !IsClosed(states, d)
    ensures fault in Live(c, states, sources) ==> InService(c, states, sources, f)
  {
    hide WellFormed, Validated, Links, Component, BoundarySet, SectionIds, DeviceIds;
    WellFormedFacts(c);
    IdsAreDisjoint(c);
    BreakersAreDevices(c);
    var E, T := Links(c, states), {fault, f.breakerId};
    forall x | x in E && (x.0 in T || x.1 in T) ensures x.0 in T && x.1 in T {
      LinkAtFault(c, states, fault, x);
      if x.0 == f.breakerId { BreakerLinksFaultOnly(c, states, f, fault, x); }
    }
    assert Graphs.Closed(E, T);
    ComponentLeast(E, fault, T);
    forall g | g in c.feeders && Feeds(c, states, sources, g, fault) ensures g == f {
      ComponentSymmetric(E, g.breakerId, fault);
      assert g.breakerId in T && g.breakerId in BreakerIds(c);
      BreakersAreUnique(c, f, g);
    }
  }

  /** A link starts at a device; one that ends on a section starts at a closed boundary of it. */
  lemma LinkAtFault(c: Network, states: States, fault: Id, x: (Id, Id))
    requires WellFormed(c) && fault in SectionIds(c) && x in Links(c, states)
    ensures x.0 in DeviceIds(c) && x.1 in SectionIds(c)
    ensures x.1 == fault ==> x.0 in BoundarySet(c, fault) && IsClosed(states, x.0)
  {
    hide WellFormed, Validated, SectionIds, DeviceIds, SourceIds;
    WellFormedFacts(c);
    var e :| e in c.edges && Conducts(c, states, e) && Link(c, e) == x;
    EdgeEnds(c, e);
    DistributionEdgeEnds(c, e);
  }

  /** The exact condition for FORMAL: the reclose keeps the boundaries open if and only if the affected
      breaker is not one of them, and it energises the fault if and only if the breaker is one and its
      source is available. */
  lemma FormalRecloseKeepsDeadIff(l: Loaded, r: RunRecord, time: int)
    requires WellFormed(l.data) && RunInv(l, r) && FaultIsDead(l.data, r) && r.run.network == N2
    ensures var s := RestoredRecord(l.data, r, time);
            && (BoundariesOpen(l.data, s.run.fault, SwitchStates(s)) <==> !BreakerAtFault(l.data, r))
            && (s.run.fault in LiveOf(l.data, s) <==>
                  BreakerAtFault(l.data, r) && Topology.Available(l.data, r.run.sources,
                    AffectedFeeder(l.data, r.run.fault).value))
  {
    hide WellFormed, TopologyAt, OutageOf, BoundarySet, Cached, Accounted, Logged, AssessedOnce, Invalidated, Grounding;
    hide AffectedFeeder;
    hide Live, Topology.Available, SectionIds;
    GroundingRun(l, r);
    var c, f, s := l.data, AffectedFeeder(l.data, r.run.fault).value, RestoredRecord(l.data, r, time);
    assert r.run.fault in SectionIds(c) by { FaultIsConfigured(c, r); }
    CloseOutsideBoundary(c, r.run.fault, r.telemetry, f.breakerId, time, r.run.revision + 1);
    RefreshStates(r.telemetry, f.breakerId, Closed, time, r.run.revision + 1);
    WellFormedFacts(c);
    if BreakerAtFault(c, r) {
      FaultHasFeeder(c, r.run.fault);
      OnlyBreakerFeeds(c, SwitchStates(s), s.run.sources, f, s.run.fault);
      if Topology.Available(c, r.run.sources, f) { BreakerAtFaultFeedsIt(c, s); }
    } else {
      OpenBoundariesIsolate(c, s.run.fault, SwitchStates(s), s.run.sources);
    }
  }

  lemma FaultIsConfigured(c: Network, r: RunRecord)
    requires Grounding(c, r)
    ensures r.run.fault in SectionIds(c)
  {
  }

  lemma OnlyExecutionChecksTies(l: Loaded, def: Definition, r: RunRecord, req: Request)
    requires Runnable(l.data, r) && WellShaped(req) && StepOf(l, def, r, req).reason == TieNotOpen
    ensures GuardReason(r, req).None? && HandleExecute(l, r, req).reason == TieNotOpen
  {
    hide HandleExecute, FaultedRecord, IsolatedRecord, RestoredRecord, AssessedRecord, Close, EventsFrom, Runnable;
    hide AffectedFeeder;
    hide TargetAvailable, RestoreGate, AssessGate, GateTopology, AlarmIndex;
  }

  /** A restoration is never refused because its tie is not OPEN. */
  lemma TieIsAlwaysOpen(l: Loaded, def: Definition, r: RunRecord, req: Request)
    requires WellFormed(l.data) && RunInv(l, r) && WellShaped(req) && Runnable(l.data, r)
    ensures StepOf(l, def, r, req).reason != TieNotOpen
  {
    hide WellFormed, RunInv, StepOf, Projection, BindingMatches, Executable, InvalidatedRecord, ExecutedRecord;
    hide EventsFrom, BoundarySet;
    hide Runnable, BoundariesOpen;
    if StepOf(l, def, r, req).reason == TieNotOpen {
      OnlyExecutionChecksTies(l, def, r, req);
      BindingIffStillPermitted(l, r, req.time);
      ExecutionIsSafe(l, r, req.time);
    }
  }

  lemma ExecuteDead(l: Loaded, r: RunRecord, req: Request)
    requires WellFormed(l.data) && RunInv(l, r) && FaultIsDead(l.data, r) && r.run.status != RunClosed
    requires HandleExecute(l, r, req).accepted
    ensures Runnable(l.data, ExecutedRecord(l.data, r, req.time))
            && FaultIsDead(l.data, ExecutedRecord(l.data, r, req.time))
  {
    hide WellFormed, TopologyAt, OutageOf, BoundarySet, Cached, Accounted, Logged, AssessedOnce, Invalidated;
    hide SectionIds, DeviceIds, SourceIds, BoundariesOpen, Projection, BindingMatches, Live;
    BindingIffStillPermitted(l, r, req.time);
    ExecutionIsSafe(l, r, req.time);
  }

  /** At execution time the projection permits, so its tie is open and off the fault's boundary. */
  lemma ExecutionIsSafe(l: Loaded, r: RunRecord, time: int)
    requires WellFormed(l.data) && RunInv(l, r) && Executable(r) && r.run.status != RunClosed
    requires Projection(l, r, time).outcome == Permitted
    ensures CurrentTie(r) in r.telemetry && r.telemetry[CurrentTie(r)].value == Open
    ensures CurrentTie(r) !in BoundarySet(l.data, r.run.fault)
    ensures BoundariesOpen(l.data, r.run.fault,
                           StatesOf(Refresh(r.telemetry, CurrentTie(r), Closed, time, r.run.revision + 1)))
  {
    hide WellFormed, TopologyAt, OutageOf, BoundarySet, Cached, Accounted, Logged, AssessedOnce, Invalidated;
    hide SectionIds, DeviceIds, SourceIds, BoundariesOpen, Assess, BindingMatches, Live, Grounded;
    RunInvParts(l, r);
    BindingIffStillPermitted(l, r, time);
    ProjectionGrounded(l, r, time, 0, 1);
    PermittedIsSafe(l, InputsFor(l.data, r, time, 0, 1));
    RefreshStates(r.telemetry, CurrentTie(r), Closed, time, r.run.revision + 1);
  }

  lemma DeadFrame(c: Network, r: RunRecord, s: RunRecord)
    requires Runnable(c, r) && FaultIsDead(c, r) && Runnable(c, s)
    requires s.telemetry == r.telemetry && s.run.fault == r.run.fault && s.run.mode == r.run.mode
    requires s.run.network == r.run.network || Order(s.run.network) <= 1
             || (s.run.network == N4 && (r.run.network == N3 || r.run.network == N4
                                         || (r.run.network == N2 && r.run.mode == Exploration)))
    ensures FaultIsDead(c, s)
  {
    hide BoundarySet, BoundariesOpen;
  }

  lemma AssessFrom(l: Loaded, r: RunRecord, time: int)
    requires Runnable(l.data, r) && AssessGate(l.data, r, time)
    ensures r.run.network == N3 || r.run.network == N4 || (r.run.network == N2 && r.run.mode == Exploration)
  {
    hide GateTopology, RecloseAvailable, IsolatedIn, LastInvalidated;
  }

  lemma HandleKeepsDead(l: Loaded, def: Definition, r: RunRecord, req: Request)
    requires WellFormed(l.data) && RunInv(l, r) && FaultIsDead(l.data, r)
    requires GuardReason(r, req).None? && WellShaped(req) && req.kind != ResetRun
    requires Handle(l, def, r, req).accepted && Runnable(l.data, Handle(l, def, r, req).record)
    ensures FaultIsDead(l.data, Handle(l, def, r, req).record)
  {
    hide WellFormed, RunInv, FaultIsDead, TopologyAt, OutageOf, EventsFrom, TargetAvailable, RestoreGate, AssessGate;
    hide BindingMatches, Projection, InputsFor, Assess, Executable, Advance, Refresh, Grounding, GateTopology;
    hide AffectedFeeder, HandleFault, InvalidatedRecord;
    RunnableRun(l, r);
    var c, step := l.data, Handle(l, def, r, req);
    match req.kind
    case InitiateFault =>
      FaultIsN1(c, r, req);
    case AcknowledgeAlarm =>
      DeadFrame(c, r, step.record);
    case OperateIsolationDevice =>
      assert Grounding(c, r) by { GroundingRun(l, r); }
      TargetIsDevice(c, def, r, req.time, req.target);
      IsolationDead(l, r, req.target.value, req.time);
      DeadFrame(c, IsolatedRecord(c, r, req.target.value, req.time), step.record);
    case RestoreNormalSource =>
      RestoreDead(l, r, req.time);
      DeadFrame(c, RestoredRecord(c, r, req.time), step.record);
    case AssessRestoration =>
      AssessFrom(l, r, req.time);
      DeadFrame(c, r, step.record);
    case ExecuteRestoration =>
      ExecuteDead(l, r, req);
      DeadFrame(c, ExecutedRecord(c, r, req.time), step.record);
  }

  lemma GroundingRun(l: Loaded, r: RunRecord)
    requires RunInv(l, r)
    ensures Grounding(l.data, r)
  {
    RunInvParts(l, r);
  }

  lemma FaultIsN1(c: Network, r: RunRecord, req: Request)
    requires Runnable(c, r) && HandleFault(c, r, req).accepted && Runnable(c, HandleFault(c, r, req).record)
    ensures FaultIsDead(c, HandleFault(c, r, req).record)
  {
    hide TopologyAt, OutageOf, EventsFrom;
  }

  /** Every command keeps the fault section dead from N2 on. */
  lemma StepKeepsDead(l: Loaded, def: Definition, r: RunRecord, req: Request)
    requires WellFormed(l.data) && RunInv(l, r) && FaultIsDead(l.data, r) && WellShaped(req)
             && FreshAssessment(r, req.commandId)
    ensures Runnable(l.data, StepOf(l, def, r, req).record) && FaultIsDead(l.data, StepOf(l, def, r, req).record)
  {
    hide WellFormed, RunInv, FaultIsDead, Handle, FreshAssessment, Close, InvalidatedRecord, Executable, BoundarySet;
    StepKeepsRun(l, def, r, req);
    RunnableRun(l, r);
    var step := StepOf(l, def, r, req);
    RunnableRun(l, step.record);
    RejectedRecord(l, def, r, req);
    if !step.accepted {
      DeadFrame(l.data, r, step.record);
    } else if req.kind == ResetRun {
      CloseShape(r, req.commandId, req.actor, req.time);
      DeadFrame(l.data, r, step.record);
    } else {
      HandleKeepsDead(l, def, r, req);
    }
  }

  /** A section whose boundary devices are all open has no source path, whatever the evidence's age. */
  lemma OpenBoundariesNoPath(c: Network, points: map<Id, Point>, sources: Sources, active: Option<Id>, fault: Id,
      time: int)
    requires WellFormed(c) && fault in SectionIds(c) && points.Keys == DeviceIds(c)
             && BoundariesOpen(c, fault, StatesOf(points))
    ensures forall d | d in BoundarySet(c, fault) :: d in points && points[d].value == Open
    ensures fault in TopologyAt(c, points, sources, active, time).sections
    ensures TopologyAt(c, points, sources, active, time).sections[fault].paths == []
  {
    hide WellFormed, Validated, Live, TopologyOf, BoundarySet, SectionPaths, SectionIds, DeviceIds;
    WellFormedFacts(c);
    OpenBoundariesIsolate(c, fault, StatesOf(points), sources);
    SectionsMean(c, InputsAt(points, sources, active, time));
    EnergisedIffReachable(c, StatesOf(points), sources, fault);
    BoundariesAreDevices(c, fault);
    forall d | d in BoundarySet(c, fault) ensures d in points && points[d].value == Open {
      assert !IsClosed(StatesOf(points), d);
    }
  }

  /** What the invariant says about a run labelled N2 to N5: every boundary device is OPEN and the
      fault section has no source path at any time, in EXPLORATION always and in FORMAL whenever the
      affected breaker does not touch the fault section. */
  lemma FaultSectionHasNoPath(l: Loaded, r: RunRecord, time: int)
    requires WellFormed(l.data) && RunInv(l, r) && FaultIsDead(l.data, r)
    requires Order(r.run.network) >= 2 && (r.run.network == N2 || RecloseIsSafe(l.data, r))
    ensures forall d | d in BoundarySet(l.data, r.run.fault) :: d in r.telemetry && r.telemetry[d].value == Open
    ensures r.run.fault in GateTopology(l.data, r, time).sections
    ensures GateTopology(l.data, r, time).sections[r.run.fault].paths == []
  {
    hide WellFormed, TopologyAt, BoundarySet, Cached, Accounted, Logged, AssessedOnce, Invalidated, Workflow;
    hide SectionIds, DeviceIds, BoundariesOpen, Runnable;
    RunInvParts(l, r);
    OpenBoundariesNoPath(l.data, r.telemetry, r.run.sources, ActiveFault(r.run), r.run.fault, time);
  }
}
