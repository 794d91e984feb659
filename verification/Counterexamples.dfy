/** Concrete runs, from the empty store on, on which the workflow's two blind spots show: a breaker that
    is normally open, and a breaker that touches the fault. */
module Counterexamples {
  import opened Ids
  import opened Configuration
  import opened Topology
  import opened Telemetry
  import opened Outage
  import opened Restoration
  import opened TopologyFacts
  import opened Derivation
  import opened Scenario
  import opened Handlers
  import opened RunInvariant
  import opened RunSteps
  import opened RunSafety
  import opened FaultSafety
  import opened Advertised
  import opened Schedule
  import opened ScheduleSteps
  import opened Store
  import opened StoreFacts
  import opened Histories
  import opened Sample

  // ---------------------------------------------------------------- the breaker is normally open

  function Exploring(): InitialiseRequest
    { InitialiseRequest(0, "operator", Exploration, EXPLORATION_VERSION, Some(NEAR), 0) }

  function TripExploring(): Request { Request(1, 0, "operator", 0, InitiateFault, 0, None, None, None, None) }

  /** The first request of all starts an EXPLORATION run on a network whose affected breaker is normally
      open. INITIATE_FAULT is listed as available, and is refused when it is sent. */
  lemma OfferedButRefused()
    ensures var env := SampleEnv(FORMAL_DEFINITION, Open); var h := [Begin(Exploring())];
            && Ready(env, EMPTY) && HistoryOk(h) && 0 in Final(env, EMPTY, h).runs
            && var s := Final(env, EMPTY, h); var r := s.runs[0];
               && r.run.version in env.catalog && Runnable(LoadedFor(env, r).data, r) && WellShaped(TripExploring())
               && Offered(AllowedActions(LoadedFor(env, r), env.def, r), TripExploring())
               && var reply := Execute(env, s, 0, TripExploring()).1;
                  reply.Answered? && !reply.result.accepted && reply.result.reason == AffectedBreakerNotClosed
  {
    hide WellFormed, RunInv, AllowedActions, StepOf, NormalPoints, NormalSources, Grid, TopologyAt, OutageOf;
    hide EventsFrom;
    hide Execute, StoreInv, Serviceable, EnvironmentOk, Runnable;
    var env, l, req := SampleEnv(FORMAL_DEFINITION, Open), GridLoaded(Open), TripExploring();
    SampleEnvOk(FORMAL_DEFINITION, Open);
    GridSets(Open);
    SampleStarts(FORMAL_DEFINITION, Open, Exploring(), NEAR);
    var s := Final(env, EMPTY, [Begin(Exploring())]);
    var r := s.runs[0];
    CommandWrites(env, s, 0, req);
    OfferedMeans(l, FORMAL_DEFINITION, r, req);
    ExploringShape(r, Open);
    OpenBreakerRefuses(l, FORMAL_DEFINITION, r, req);
  }

  lemma OpenBreakerRefuses(l: Loaded, def: Definition, r: RunRecord, req: Request)
    requires Runnable(l.data, r) && r.run.network == N0 && !r.run.faultActive && WellShaped(req)
    requires r.telemetry[BreakerId(l.data, r)].value != Closed
    requires req.kind == InitiateFault && GuardReason(r, req).None?
    ensures StepOf(l, def, r, req) == Handlers.Reject(r, AffectedBreakerNotClosed)
  {
    hide FaultedRecord, AffectedFeeder, EventsFrom;
  }

  /** What a fresh EXPLORATION run next to the breaker looks like. */
  lemma ExploringShape(r: RunRecord, b: SwitchState)
    requires r == NewRecord(GridLoaded(b), 0, Exploration, NEAR, 0, "build", "operator")
             && Runnable(GridLoaded(b).data, r)
    ensures r.run.network == N0 && !r.run.faultActive && GuardReason(r, TripExploring()).None?
    ensures r.telemetry[BreakerId(GridLoaded(b).data, r)].value == b
  {
    hide TopologyAt, OutageOf, EventsFrom, NormalPoints, NormalSources, Grid, Name, NewRecord, AffectedFeeder;
    NewShape(GridLoaded(b), 0, Exploration, NEAR, 0, "build", "operator");
    GridAffected(b);
    GridBreaker(b);
  }

  // ---------------------------------------------------------------- the breaker touches the fault

  /** A FORMAL run whose fault is bounded by its own breaker and one switch, somewhere along the way. */
  ghost predicate Touching(l: Loaded, r: RunRecord, w: Id, network: NetworkState, revision: nat, breaker: SwitchState,
      switch: SwitchState) {
    && WellFormed(l.data) && RunInv(l, r) && Runnable(l.data, r)
    && BoundarySet(l.data, r.run.fault) == {BreakerId(l.data, r), w} && w != BreakerId(l.data, r)
    && Topology.Available(l.data, r.run.sources, AffectedFeeder(l.data, r.run.fault).value)
    && r.run.network == network && r.run.revision == revision && r.run.time == r.run.initialTime + revision
    && r.run.mode == Formal && r.run.status != RunClosed && r.assessments == []
    && r.telemetry[BreakerId(l.data, r)].value == breaker && w in r.telemetry && r.telemetry[w].value == switch
  }

  /** The command is accepted and leads to the given state. */
  ghost predicate Reaches(l: Loaded, def: Definition, r: RunRecord, req: Request, w: Id,
                          network: NetworkState, revision: nat, breaker: SwitchState, switch: SwitchState)
    requires Runnable(l.data, r)
  {
    WellShaped(req) && StepOf(l, def, r, req).accepted
      && Touching(l, StepOf(l, def, r, req).record, w, network, revision, breaker, switch)
  }

  function Trip(r: RunRecord): Request
    { Request(1, r.run.id, "", 0, InitiateFault, r.run.initialTime + 1, None, None, None, None) }
  function Isolate(r: RunRecord, w: Id): Request {
    Request(2, r.run.id, "", 1, OperateIsolationDevice, r.run.initialTime + 2, Some(w), Some(Open), None, None)
  }
  function Reclose(r: RunRecord, b: Id): Request {
    Request(3, r.run.id, "", 2, RestoreNormalSource, r.run.initialTime + 3, Some(b), Some(Closed), None, None)
  }

  lemma TouchingFacts(l: Loaded, r: RunRecord, w: Id, network: NetworkState, revision: nat, breaker: SwitchState,
      switch: SwitchState)
    requires Touching(l, r, w, network, revision, breaker, switch)
    ensures Grounding(l.data, r) && (network != N0 ==> r.run.faultActive) && (network == N0 ==> !r.run.faultActive)
    ensures network == N0 ==> r.telemetry == NormalPoints(l.data, r.run.initialTime)
  {
    hide WellFormed, Cached, Accounted, Logged, AssessedOnce, Invalidated, BoundarySet;
    RunInvParts(l, r);
  }

  /** What a command that moves on to a state before N4 keeps. */
  lemma TouchingKeeps(l: Loaded, def: Definition, r: RunRecord, req: Request)
    requires WellFormed(l.data) && RunInv(l, r) && Runnable(l.data, r) && WellShaped(req) && r.assessments == []
    requires Order(StepOf(l, def, r, req).record.run.network) < 4
    ensures var s := StepOf(l, def, r, req).record;
            && RunInv(l, s) && Runnable(l.data, s) && s.assessments == []
               && BreakerId(l.data, s) == BreakerId(l.data, r)
            && s.run.mode == r.run.mode && s.run.fault == r.run.fault && s.run.initialTime == r.run.initialTime
               && s.run.id == r.run.id
  {
    hide WellFormed, RunInv, StepOf;
    StepKeepsRun(l, def, r, req);
    RunnableRun(l, StepOf(l, def, r, req).record);
    AssessedLate(l, StepOf(l, def, r, req).record);
  }

  lemma AssessedLate(l: Loaded, r: RunRecord)
    requires RunInv(l, r)
    ensures Order(r.run.network) < 4 ==> r.assessments == []
  {
    hide Cached, Accounted, Logged, Workflow, Grounding, Invalidated;
    RunInvParts(l, r);
  }

  lemma TouchingTrips(l: Loaded, def: Definition, r: RunRecord, w: Id)
    requires Runnable(l.data, r) && Touching(l, r, w, N0, 0, Closed, Closed)
    ensures Reaches(l, def, r, Trip(r), w, N1, 1, Open, Closed)
  {
    hide WellFormed, RunInv, HandleFault, BoundarySet, Topology.Available, NormalPoints;
    TouchingFacts(l, r, w, N0, 0, Closed, Closed);
    NormalBreaker(l.data, r);
    FaultIff(l, r, Trip(r));
    FaultWrites(l.data, r, Trip(r));
    TouchingKeeps(l, def, r, Trip(r));
  }

  lemma TouchingIsolates(l: Loaded, def: Definition, r: RunRecord, w: Id)
    requires Runnable(l.data, r) && Touching(l, r, w, N1, 1, Open, Closed)
    ensures Reaches(l, def, r, Isolate(r, w), w, N2, 2, Open, Open)
  {
    hide WellFormed, RunInv, HandleIsolation, BoundarySet, Topology.Available, TopologyAt, NextIsolationTarget;
    hide IsolatedIn, StatusAt;
    TouchingFacts(l, r, w, N1, 1, Open, Closed);
    var req := Isolate(r, w);
    LastClosedIsNext(l.data, def, r, req.time, w);
    IsolationAccepted(l, def, r, req);
    IsolationWrites(l.data, def, r, req);
    TouchingKeeps(l, def, r, req);
    var s := StepOf(l, def, r, req).record;
    GroundingRun(l, s);
    AllOpenIsolates(l.data, s.telemetry, s.run.sources, s.run.fault, BreakerId(l.data, s), w, s, req.time);
  }

  lemma IsolationAccepted(l: Loaded, def: Definition, r: RunRecord, req: Request)
    requires Runnable(l.data, r) && WellShaped(req) && req.kind == OperateIsolationDevice && GuardReason(r, req).None?
             && r.run.mode == Formal
    requires req.state == Some(Open) && req.target == NextIsolationTarget(def, r.run, GateTopology(l.data, r, req.time))
    ensures StepOf(l, def, r, req).accepted && StepOf(l, def, r, req) == HandleIsolation(l.data, def, r, req)
  {
    hide GateTopology, NextIsolationTarget, IsolatedRecord, EventsFrom;
  }

  /** With both boundaries open and a minute not yet past, isolation is proven. */
  lemma AllOpenIsolates(c: Network, points: map<Id, Point>, sources: Sources, fault: Id, b: Id, w: Id, r: RunRecord,
      time: int)
    requires WellFormed(c) && Grounding(c, r) && r.telemetry == points && r.run.fault == fault
             && BoundarySet(c, fault) == {b, w}
    requires r.run.time <= time <= r.run.initialTime + MAXIMUM_TELEMETRY_AGE_MS
    requires b in points && points[b].value == Open && w in points && points[w].value == Open
    ensures IsolatedIn(TopologyAt(c, points, sources, Some(fault), time))
  {
    hide WellFormed, BoundarySet, TopologyAt, IsolatedIn, StatusAt, SectionIds, DeviceIds, SourceIds;
    IsolatedMeans(c, points, sources, fault, time);
    StatusWithinAMinute(c, r, b, time);
    StatusWithinAMinute(c, r, w, time);
    assert b in BoundarySet(c, fault);
  }

  lemma TouchingRecloses(l: Loaded, def: Definition, r: RunRecord, w: Id)
    requires Runnable(l.data, r) && Touching(l, r, w, N2, 2, Open, Open)
    ensures Reaches(l, def, r, Reclose(r, BreakerId(l.data, r)), w, N3, 3, Closed, Open)
  {
    hide WellFormed, RunInv, BoundarySet, Topology.Available, TopologyAt, IsolatedIn, RecloseAvailable, RestoredRecord;
    hide EventsFrom;
    TouchingFacts(l, r, w, N2, 2, Open, Open);
    var req := Reclose(r, BreakerId(l.data, r));
    AllOpenIsolates(l.data, r.telemetry, r.run.sources, r.run.fault, BreakerId(l.data, r), w, r, req.time);
    assert HandleRestore(l.data, r, req).accepted;
    RestoreWrites(l.data, r, req);
    TouchingKeeps(l, def, r, req);
  }

  /** Three commands in a row, each accepted, and the network state and fault they end with. */
  ghost predicate FedAfter(l: Loaded, def: Definition, r: RunRecord, a: Request, b: Request, c: Request)
  {
    && Runnable(l.data, r) && WellShaped(a) && StepOf(l, def, r, a).accepted
    && var r1 := StepOf(l, def, r, a).record;
       && Runnable(l.data, r1) && WellShaped(b) && StepOf(l, def, r1, b).accepted
       && var r2 := StepOf(l, def, r1, b).record;
          && Runnable(l.data, r2) && r2.run.network == N2 && WellShaped(c) && StepOf(l, def, r2, c).accepted
          && var r3 := StepOf(l, def, r2, c).record;
             r3.run.network == N3 && r3.run.faultActive && r3.run.fault in LiveOf(l.data, r3)
  }

  /** On every such run three accepted commands lead from N0 to a faulted section that is labelled
      restored upstream and is energised: FORMAL does not check isolation again after the reclose. */
  lemma FormalRecloseFeedsTheFault(l: Loaded, def: Definition, r: RunRecord, w: Id)
    requires Runnable(l.data, r) && Touching(l, r, w, N0, 0, Closed, Closed)
    ensures FedAfter(l, def, r, Trip(r), Isolate(r, w), Reclose(r, BreakerId(l.data, r)))
  {
    hide WellFormed, RunInv, BoundarySet, StepOf, LiveOf, Runnable;
    TouchingTrips(l, def, r, w);
    var r1 := StepOf(l, def, r, Trip(r)).record;
    TouchingKeeps(l, def, r, Trip(r));
    TouchingIsolates(l, def, r1, w);
    var r2 := StepOf(l, def, r1, Isolate(r1, w)).record;
    TouchingKeeps(l, def, r1, Isolate(r1, w));
    TouchingRecloses(l, def, r2, w);
    var r3 := StepOf(l, def, r2, Reclose(r2, BreakerId(l.data, r2))).record;
    TouchingFacts(l, r3, w, N3, 3, Closed, Open);
    assert BreakerId(l.data, r3) in BoundarySet(l.data, r3.run.fault);
    BreakerAtFaultFeedsIt(l.data, r3);
  }

  // ---------------------------------------------------------------- such a run, from the empty store

  /** A definition whose fault lies between the breaker and one switch. */
  const BESIDE_BREAKER := Definition(NEAR, [FIRST])

  function Beginning(): InitialiseRequest { InitialiseRequest(0, "operator", Formal, EXPLORATION_VERSION, None, 0) }

  lemma BeginningIsChosen()
    ensures EnvironmentOk(SampleEnv(BESIDE_BREAKER, Closed))
    ensures Chosen(SampleEnv(BESIDE_BREAKER, Closed), Beginning()) == Result.Success((GridLoaded(Closed), NEAR))
  {
    hide Grid, Name, WellFormed;
    SampleEnvOk(BESIDE_BREAKER, Closed);
    GridSets(Closed);
  }

  lemma BeginningTouches(r: RunRecord)
    requires r == NewRecord(GridLoaded(Closed), 0, Formal, NEAR, 0, "build", "operator") && Runnable(Grid(Closed), r)
    requires WellFormed(Grid(Closed)) && RunInv(GridLoaded(Closed), r)
    ensures r.run.id == 0 && r.run.initialTime == 0 && r.run.fault == NEAR
    ensures Touching(GridLoaded(Closed), r, FIRST, N0, 0, Closed, Closed)
  {
    hide WellFormed, RunInv, BoundarySet, Grid, Name, NewRecord, NormalPoints, NormalSources, AffectedFeeder;
    NewShape(GridLoaded(Closed), 0, Formal, NEAR, 0, "build", "operator");
    AssessedLate(GridLoaded(Closed), r);
    GridBoundaries(Closed);
    GridAffected(Closed);
    GridBreaker(Closed);
    BreakerIsNotFirst();
    FirstIsClosed();
    SourceIsAvailable();
  }

  lemma FirstIsClosed()
    ensures FIRST in NormalPoints(Grid(Closed), 0) && NormalPoints(Grid(Closed), 0)[FIRST].value == Closed
  {
    hide Name, Rank, Grid, NormalPoints;
    NamesDiffer();
    GridIsNormal(Closed, 0);
    assert FIRST in StatesOf(NormalPoints(Grid(Closed), 0));
  }

  lemma SourceIsAvailable()
    ensures Topology.Available(Grid(Closed), NormalSources(Grid(Closed)), Grid(Closed).feeders[0])
  {
    hide Name;
    GridIsNormal(Closed, 0);
  }

  /** The first request of all starts such a run. */
  lemma FormalRunTouches()
    ensures var env := SampleEnv(BESIDE_BREAKER, Closed); var h := [Begin(Beginning())];
            && Ready(env, EMPTY) && HistoryOk(h) && 0 in Final(env, EMPTY, h).runs
            && Final(env, EMPTY, h).results.Keys == {0}
            && var r := Final(env, EMPTY, h).runs[0];
               && r.run.id == 0 && r.run.initialTime == 0 && r.run.fault == NEAR
               && r.run.version in env.catalog && LoadedFor(env, r) == GridLoaded(Closed)
               && Touching(GridLoaded(Closed), r, FIRST, N0, 0, Closed, Closed)
  {
    hide WellFormed, RunInv, NewRecord, Grid, Name, Chosen, StoreInv, Serviceable, EnvironmentOk, Touching, Runnable;
    BeginningIsChosen();
    GridSets(Closed);
    SampleStarts(BESIDE_BREAKER, Closed, Beginning(), NEAR);
    BeginningTouches(Final(SampleEnv(BESIDE_BREAKER, Closed), EMPTY, [Begin(Beginning())]).runs[0]);
  }

  lemma BreakerIsNotFirst()
    ensures FAULTED_BREAKER != FIRST
  {
    hide Name, Rank;
    NamesDiffer();
  }

  function FedHistory(): seq<Operation> {
    [Begin(Beginning()),
     Command(0, Request(1, 0, "", 0, InitiateFault, 1, None, None, None, None)),
     Command(0, Request(2, 0, "", 1, OperateIsolationDevice, 2, Some(FIRST), Some(Open), None, None)),
     Command(0, Request(3, 0, "", 2, RestoreNormalSource, 3, Some(FAULTED_BREAKER), Some(Closed), None, None))]
  }

  /** Four requests from the empty store leave a FORMAL run at N3 whose faulted section is energised. */
  lemma FormalHistoryFeedsTheFault()
    ensures var env := SampleEnv(BESIDE_BREAKER, Closed);
            && Ready(env, EMPTY) && HistoryOk(FedHistory()) && 0 in Final(env, EMPTY, FedHistory()).runs
            && var r := Final(env, EMPTY, FedHistory()).runs[0];
               r.run.network == N3 && r.run.faultActive && r.run.fault in LiveOf(Grid(Closed), r)
  {
    hide WellFormed, RunInv, Touching, StepOf, LiveOf, Grid, Name, StoreInv, Serviceable, EnvironmentOk, Apply;
    hide Runnable;
    var env, l := SampleEnv(BESIDE_BREAKER, Closed), GridLoaded(Closed);
    FormalRunTouches();
    var h := [Begin(Beginning())];
    var r := Final(env, EMPTY, h).runs[0];
    TouchingRequests(r);
    FormalRecloseFeedsTheFault(l, BESIDE_BREAKER, r, FIRST);
    var a, b, c := Trip(r), Isolate(r, FIRST), Reclose(r, FAULTED_BREAKER);
    Sends(env, l, h, 0, a);
    Sends(env, l, h + [Command(0, a)], 0, b);
    Sends(env, l, h + [Command(0, a)] + [Command(0, b)], 0, c);
    assert FedHistory() == h + [Command(0, a)] + [Command(0, b)] + [Command(0, c)];
  }

  lemma TouchingRequests(r: RunRecord)
    requires Touching(GridLoaded(Closed), r, FIRST, N0, 0, Closed, Closed) && r.run.fault == NEAR
    ensures Runnable(Grid(Closed), r)
    ensures BreakerId(Grid(Closed), r) == FAULTED_BREAKER
  {
    hide WellFormed, RunInv, BoundarySet, Grid, Name, NormalPoints, NormalSources, AffectedFeeder;
    GridAffected(Closed);
    GridBreaker(Closed);
  }
}
