/** The formal schedule carried out on the sample network, request by request from the empty store, and by
    the driver. Both end at N5 with the alternate feeder above its capacity. */
module ScheduledRun {
  import opened Ids
  import opened Configuration
  import opened Topology
  import opened Restoration
  import opened Telemetry
  import opened TopologyFacts
  import opened Derivation
  import opened Scenario
  import opened Handlers
  import opened RunInvariant
  import opened RunPreservation
  import opened RunSteps
  import opened RunSafety
  import opened FaultSafety
  import opened Advertised
  import opened Store
  import opened StoreFacts
  import opened Histories
  import opened UnitOfWork
  import opened Coordinator
  import opened Schedule
  import opened ScheduleSteps
  import opened Regression
  import opened Sample
  import opened Overload

  // ---------------------------------------------------------------- the requests

  function Beginning(): InitialiseRequest { InitialiseRequest(0, "operator", Formal, EXPLORATION_VERSION, None, 0) }

  function SampleEnvironment(): Environment { SampleEnv(FORMAL_DEFINITION, Closed) }

  function Sent(k: nat): Request
    requires k <= 6
  {
    match k
    case 0 => Request(1, 0, "operator", 0, InitiateFault, 10_000, None, None, None, None)
    case 1 => Request(2, 0, "operator", 1, AcknowledgeAlarm, 11_000, None, None, Some(1), None)
    case 2 => Request(3, 0, "operator", 1, OperateIsolationDevice, 20_000, Some(FIRST_SWITCH), Some(Open), None, None)
    case 3 => Request(4, 0, "operator", 2, OperateIsolationDevice, 30_000, Some(SECOND_SWITCH), Some(Open), None, None)
    case 4 => Request(5, 0, "operator", 3, RestoreNormalSource, 40_000, Some(FAULTED_BREAKER), Some(Closed), None, None)
    case 5 => Request(6, 0, "operator", 4, AssessRestoration, 50_000, None, None, None, None)
    case 6 => Request(7, 0, "operator", 4, ExecuteRestoration, 55_000, None, None, None, Some(6))
  }

  /** Initialisation and the first `k` scheduled commands. */
  function Script(k: nat): seq<Operation>
    requires k <= 7
  {
    if k == 0 then [Begin(Beginning())] else Script(k - 1) + [Command(0, Sent(k - 1))]
  }

  function RevisionAt(k: nat): nat {
    match k case 0 => 0 case 1 => 1 case 2 => 1 case 3 => 2 case 4 => 3 case 5 => 4 case 6 => 4 case _ => 5
  }

  /** The run of the script after `k` commands. */
  ghost predicate Standing(r: RunRecord, k: nat) {
    && OnSchedule(GridLoaded(Closed), r, k) && r.run.id == 0 && r.run.initialTime == 0
       && r.run.revision == RevisionAt(k)
    && (k >= 1 ==> |r.alarms| == 1 && r.alarms[0].id == 1)
    && (k == 6 ==> |r.assessments| == 1 && r.assessments[0].id == 6)
  }

  // ---------------------------------------------------------------- the assessment at the sixth station

  lemma StationShape(r: RunRecord, k: nat)
    requires OnSchedule(GridLoaded(Closed), r, k)
    ensures Runnable(Grid(Closed), r) && r.run.fault == MIDDLE && BreakerId(Grid(Closed), r) == FAULTED_BREAKER
    ensures r.run.sources == NormalSources(Grid(Closed))
    ensures k == 6 ==> SwitchStates(r) == ScheduledStates(Grid(Closed), FAULTED_BREAKER, 6)
    ensures k == 6 ==> r.run.faultActive && r.run.time == r.run.initialTime + 50_000 && Grounding(Grid(Closed), r)
  {
    hide Name, Rank, Grid, BoundarySet, RunInv, FaultIsDead, NormallyClosed, NormalSources, ScheduledStates, StatesOf;
    hide AffectedFeeder, Grounding, Workflow;
    StationFacts(GridLoaded(Closed), r, k);
    assert r.run.fault in SectionIds(Grid(Closed)) by { FaultIsConfigured(Grid(Closed), r); }
    FormalNames();
    OnlyMiddle(Closed, r.run.fault);
    GridAffected(Closed);
    GridBreaker(Closed);
  }

  /** The inputs of the assessment made at the sixth station. */
  lemma StationAsks(r: RunRecord, id: nat, sequence: nat)
    requires OnSchedule(GridLoaded(Closed), r, 6)
    ensures Asking(InputsFor(Grid(Closed), r, r.run.time, id, sequence))
  {
    hide Name, Rank, Grid, OnSchedule, TopologyAt, IsolatedIn, WellFormed, ScheduledStates, StatesOf, Grounding;
    hide Isolated;
    hide NormalSources, Runnable;
    StationShape(r, 6);
    ScheduledIsIsolated();
    GridIsWellFormed(Closed);
    IsolatedOnSchedule(GridLoaded(Closed), r, 6, r.run.time);
    TelemetryWithinAMinute(GridLoaded(Closed), r, r.run.time);
  }

  /** At the sixth station the run's one assessment is PERMITTED at exactly the capacity of the feeder. */
  lemma StationIsPermitted(r: RunRecord)
    requires OnSchedule(GridLoaded(Closed), r, 6)
    ensures |r.assessments| == 1 && r.assessments[0].outcome == Permitted
    ensures r.assessments[0].candidate.Some? && OverTheTie(r.assessments[0].candidate.value)
    ensures r.assessments[0].calculation == Some(Calculation(1, 1, 2, 2, true))
  {
    hide Name, Rank, Grid, InputsFor, Assess, OverTheTie, RunInv, FaultIsDead, AsSwitched, FormalNetwork, Asking;
    StationFacts(GridLoaded(Closed), r, 6);
    var a := r.assessments[0];
    StationAsks(r, a.id, a.sequence);
    AskedIsPermitted(InputsFor(Grid(Closed), r, a.time, a.id, a.sequence));
  }

  // ---------------------------------------------------------------- one request after another

  lemma SentIsShaped(k: nat)
    requires k <= 6
    ensures WellShaped(Sent(k)) && Sent(k).runId == 0 && Sent(k).kind == StationKind(k) && Sent(k).kind != ResetRun
    ensures Sent(k).commandId == k + 1 && Sent(k).time == StationMs(k + 1) && Sent(k).expectedRevision == RevisionAt(k)
    ensures k == 2 ==> Sent(k).target == Some(FIRST_SWITCH)
    ensures k == 3 ==> Sent(k).target == Some(SECOND_SWITCH)
  {
  }

  /** What is on offer depends on the content of the command only. */
  lemma SameOffer(l: Loaded, r: RunRecord, a: Request, b: Request)
    requires Runnable(l.data, r) && WellShaped(a) && WellShaped(b) && OfferedBy(l, FORMAL_DEFINITION, r, a)
    requires a.kind == b.kind && a.target == b.target && a.state == b.state && a.alarm == b.alarm
             && a.assessment == b.assessment
    ensures OfferedBy(l, FORMAL_DEFINITION, r, b)
  {
    hide Runnable, RestoreGate, AssessGate, CurrentlyExecutable, TargetAvailable, ListedBoundaries, GateTopology;
  }

  lemma SentIsOffered(r: RunRecord, k: nat)
    requires Standing(r, k) && k <= 6 && WellFormed(Grid(Closed)) && WellShaped(Sent(k))
    ensures Runnable(Grid(Closed), r) && OfferedBy(GridLoaded(Closed), FORMAL_DEFINITION, r, Sent(k))
  {
    hide Name, Rank, Grid, OnSchedule, OfferedBy, WellFormed, Runnable;
    StationShape(r, k);
    if k == 6 { StationIsPermitted(r); }
    StationIsReady(GridLoaded(Closed), r, k);
    SameOffer(GridLoaded(Closed), r, StationRequest(GridLoaded(Closed), r, k), Sent(k));
  }

  /** What a scheduled command writes of names and revisions. */
  ghost predicate Recorded(r: RunRecord, k: nat, req: Request, s: RunRecord) {
    && s.run.revision == r.run.revision + (if k == 1 || k == 5 then 0 else 1)
    && |s.alarms| == 1 && s.alarms[0].id == (if k == 0 then req.commandId
                                                            else if |r.alarms| == 1 then r.alarms[0].id else 0)
    && (k == 5 ==> s.assessments != [] && s.assessments[|s.assessments|-1].id == req.commandId)
  }

  lemma AlarmNames(l: Loaded, r: RunRecord, k: nat, req: Request)
    requires Runnable(l.data, r) && WellShaped(req) && req.kind == StationKind(k) && k <= 1
             && |r.alarms| == (if k == 0 then 0 else 1)
    requires StepOf(l, FORMAL_DEFINITION, r, req).accepted
    ensures Recorded(r, k, req, StepOf(l, FORMAL_DEFINITION, r, req).record)
  {
    hide HandleFault, HandleAcknowledge, Runnable, AffectedFeeder;
    if k == 0 { FaultWrites(l.data, r, req); } else { AcknowledgeWrites(r, req); }
  }

  lemma SwitchingNames(l: Loaded, r: RunRecord, k: nat, req: Request)
    requires Runnable(l.data, r) && WellShaped(req) && req.kind == StationKind(k) && 2 <= k <= 4
             && |r.alarms| == (if k == 0 then 0 else 1)
    requires StepOf(l, FORMAL_DEFINITION, r, req).accepted
    ensures Recorded(r, k, req, StepOf(l, FORMAL_DEFINITION, r, req).record)
  {
    hide HandleIsolation, HandleRestore, Runnable, AffectedFeeder;
    if k == 4 { RestoreWrites(l.data, r, req); } else { IsolationWrites(l.data, FORMAL_DEFINITION, r, req); }
  }

  lemma RestorationNames(l: Loaded, r: RunRecord, k: nat, req: Request)
    requires Runnable(l.data, r) && WellShaped(req) && req.kind == StationKind(k) && 5 <= k <= 6
             && |r.alarms| == (if k == 0 then 0 else 1)
    requires StepOf(l, FORMAL_DEFINITION, r, req).accepted
    ensures Recorded(r, k, req, StepOf(l, FORMAL_DEFINITION, r, req).record)
  {
    hide HandleFault, HandleAcknowledge, HandleIsolation, HandleRestore, HandleAssess, HandleExecute, HandleReset;
    hide Runnable, AffectedFeeder, Executable, GuardReason;
    if k == 5 { AssessWrites(l, r, req); } else { ExecuteWrites(l, r, req); }
  }

  lemma SentNames(l: Loaded, r: RunRecord, k: nat, req: Request)
    requires Runnable(l.data, r) && WellShaped(req) && req.kind == StationKind(k) && k <= 6
             && |r.alarms| == (if k == 0 then 0 else 1)
    requires StepOf(l, FORMAL_DEFINITION, r, req).accepted
    ensures Recorded(r, k, req, StepOf(l, FORMAL_DEFINITION, r, req).record)
  {
    hide StepOf, Runnable, WellShaped, Recorded;
    if k <= 1 { AlarmNames(l, r, k, req); }
    else if k <= 4 { SwitchingNames(l, r, k, req); }
    else { RestorationNames(l, r, k, req); }
  }

  lemma StationAlarms(r: RunRecord, k: nat)
    requires Standing(r, k)
    ensures |r.alarms| == (if k == 0 then 0 else 1) && RunInv(GridLoaded(Closed), r)
  {
    hide RunInv, FaultIsDead, AsSwitched, FormalNetwork, Grounding, Grid;
    StationFacts(GridLoaded(Closed), r, k);
  }

  lemma SentLands(r: RunRecord, k: nat)
    requires Standing(r, k) && k <= 6 && WellFormed(Grid(Closed)) && WellShaped(Sent(k)) && FreshAssessment(r, k + 1)
    ensures Runnable(Grid(Closed), r) && StepOf(GridLoaded(Closed), FORMAL_DEFINITION, r, Sent(k)).accepted
    ensures Standing(StepOf(GridLoaded(Closed), FORMAL_DEFINITION, r, Sent(k)).record, k + 1)
  {
    hide Name, Rank, Grid, OnSchedule, OfferedBy, WellFormed, Runnable, StepOf, FreshAssessment, WellShaped, RunInv;
    hide Sent;
    SentIsShaped(k);
    SentIsOffered(r, k);
    var l := GridLoaded(Closed);
    var s := StepOf(l, FORMAL_DEFINITION, r, Sent(k)).record;
    StationAlarms(r, k);
    ScheduledIsAccepted(l, r, k, Sent(k));
    ScheduledLands(l, r, k, Sent(k));
    SentNames(l, r, k, Sent(k));
    StepKeepsRun(l, FORMAL_DEFINITION, r, Sent(k));
    if k == 5 { StationIsPermitted(s); }
  }

  // ---------------------------------------------------------------- from the empty store

  lemma BeginningIsChosen()
    ensures EnvironmentOk(SampleEnvironment())
    ensures Chosen(SampleEnvironment(), Beginning()) == Result.Success((GridLoaded(Closed), MIDDLE))
  {
    hide Grid, Name, WellFormed;
    SampleEnvOk(FORMAL_DEFINITION, Closed);
    GridSets(Closed);
    FormalNames();
  }

  lemma FreshIsStanding(r: RunRecord)
    requires WellFormed(Grid(Closed)) && MIDDLE in SectionIds(Grid(Closed))
    requires r == NewRecord(GridLoaded(Closed), 0, Formal, MIDDLE, 0, "build", "operator")
    ensures Standing(r, 0)
  {
    hide Name, Rank, Grid, WellFormed, NewRecord, OnSchedule, BoundarySet, AffectedFeeder, DeviceById;
    NewShape(GridLoaded(Closed), 0, Formal, MIDDLE, 0, "build", "operator");
    GridBoundaries(Closed);
    GridAffected(Closed);
    GridBreaker(Closed);
    GridDevice(Closed, 0);
    GridDevice(Closed, 2);
    GridDevice(Closed, 3);
    FormalNames();
    BreakerIsNoSwitch();
    FreshRunIsOnSchedule(GridLoaded(Closed), 0, MIDDLE, 0, "build", "operator");
  }

  lemma BreakerIsNoSwitch()
    ensures FAULTED_BREAKER != FIRST && FAULTED_BREAKER != SECOND
  {
    hide Name, Rank;
    NamesDiffer();
  }

  /** The history leaves run 0 as the script's first `k` commands do. */
  ghost predicate Reached(h: seq<Operation>, k: nat)
    requires Ready(SampleEnvironment(), EMPTY) && HistoryOk(h)
  {
    var f := Final(SampleEnvironment(), EMPTY, h);
    && 0 in f.runs && f.runs[0].run.version == EXPLORATION_VERSION && Standing(f.runs[0], k)
    && forall id | id in f.results :: id <= k
  }

  lemma ScriptBegins()
    ensures Ready(SampleEnvironment(), EMPTY) && HistoryOk([Begin(Beginning())]) && Reached([Begin(Beginning())], 0)
  {
    hide Name, Grid, WellFormed, RunInv, StoreInv, Serviceable, EnvironmentOk, Chosen, NewRecord, Runnable, Standing;
    BeginningIsChosen();
    GridSets(Closed);
    SampleStarts(FORMAL_DEFINITION, Closed, Beginning(), MIDDLE);
    var r := Final(SampleEnvironment(), EMPTY, [Begin(Beginning())]).runs[0];
    FreshIsStanding(r);
    NewShape(GridLoaded(Closed), 0, Formal, MIDDLE, 0, "build", "operator");
  }

  lemma SampleLoaded(r: RunRecord)
    requires r.run.version == EXPLORATION_VERSION
    ensures r.run.version in SampleEnvironment().catalog && LoadedFor(SampleEnvironment(), r) == GridLoaded(Closed)
  {
    hide Grid;
  }

  /** Where run 0 stands, one of the script's commands is accepted. */
  lemma ScriptAccepted(h: seq<Operation>, k: nat)
    requires k <= 6 && Ready(SampleEnvironment(), EMPTY) && HistoryOk(h) && Reached(h, k)
    ensures WellShaped(Sent(k)) && Sent(k).runId == 0 && Sent(k).kind != ResetRun && Sent(k).commandId == k + 1
    ensures var f := Final(SampleEnvironment(), EMPTY, h);
            && 0 in f.runs && k + 1 !in f.results && FreshAssessment(f.runs[0], k + 1)
            && Runnable(Grid(Closed), f.runs[0])
            && StepOf(GridLoaded(Closed), FORMAL_DEFINITION, f.runs[0], Sent(k)).accepted
            && Standing(StepOf(GridLoaded(Closed), FORMAL_DEFINITION, f.runs[0], Sent(k)).record, k + 1)
  {
    hide Name, Grid, WellFormed, RunInv, StoreInv, Serviceable, EnvironmentOk, Runnable, Standing, StepOf;
    hide FreshAssessment;
    hide WellShaped, Sent, Final, HistoryOk, RunOk;
    GridIsWellFormed(Closed);
    SentIsShaped(k);
    var f := Final(SampleEnvironment(), EMPTY, h);
    RunAt(SampleEnvironment(), f, 0, k + 1);
    SentLands(f.runs[0], k);
  }

  lemma ScriptContinues(h: seq<Operation>, k: nat)
    requires k <= 6 && Ready(SampleEnvironment(), EMPTY) && HistoryOk(h) && Reached(h, k)
    ensures OperationOk(Command(0, Sent(k)))
    ensures HistoryOk(h + [Command(0, Sent(k))]) && Reached(h + [Command(0, Sent(k))], k + 1)
  {
    hide Name, Grid, WellFormed, RunInv, StoreInv, Serviceable, EnvironmentOk, Runnable, Standing, StepOf;
    hide FreshAssessment;
    hide WellShaped, Sent, Final, HistoryOk, SampleEnvironment;
    var env := SampleEnvironment();
    var s := Final(env, EMPTY, h);
    ScriptAccepted(h, k);
    SampleLoaded(s.runs[0]);
    SampleDefinition();
    Sends(env, GridLoaded(Closed), h, 0, Sent(k));
    StepVersion(env, s, 0, Sent(k));
  }

  lemma SampleDefinition()
    ensures SampleEnvironment().def == FORMAL_DEFINITION
  {
    hide Grid;
  }

  /** Every prefix of the script is carried out in full. */
  lemma {:induction false} ScriptReaches(k: nat)
    requires k <= 7
    ensures Ready(SampleEnvironment(), EMPTY) && HistoryOk(Script(k)) && Reached(Script(k), k)
  {
    hide Reached, HistoryOk, Sent, SampleEnvironment;
    if k == 0 {
      ScriptBegins();
    } else {
      ScriptReaches(k - 1);
      ScriptContinues(Script(k - 1), k - 1);
    }
  }

  // ---------------------------------------------------------------- the overload

  /** The run shows a PERMITTED restoration assessed at exactly the alternate feeder's capacity, and a
      derived load beyond it, whatever the time. */
  ghost predicate Overloaded(r: RunRecord, time: int) {
    && r.run.mode == Formal && r.run.network == N5 && |r.assessments| == 1
    && r.assessments[0].outcome == Permitted && r.assessments[0].candidate.Some?
    && r.assessments[0].candidate.value.alternateFeeder == OTHER
    && r.assessments[0].calculation == Some(Calculation(1, 1, 2, 2, true))
    && FeederById(Grid(Closed), OTHER).Some? && FeederById(Grid(Closed), OTHER).value.capacityKw == 2
    && var t := GateTopology(Grid(Closed), r, time);
       t.radiality == Radial && OTHER in t.loads && t.loads[OTHER].loadKw == Some(3)
  }

  lemma RestoredLoad(points: map<Id, Point>, fault: Option<Id>, time: int)
    requires StatesOf(points) == Restored()
    ensures var t := TopologyAt(Grid(Closed), points, SUPPLYING, fault, time);
            t.radiality == Radial && OTHER in t.loads && t.loads[OTHER].loadKw == Some(3)
  {
    hide Name, Rank, Grid, TopologyOf, WellFormed, SectionIds, FeederIds, SuppliedBy, MultiplySupplied, LoadOf;
    hide Restored;
    hide StatesOf, RadialNetwork;
    GridSets(Closed);
    GridIsWellFormed(Closed);
    GridLiveAfter();
    GridLoads();
    GridIsRadial();
    LoadsMean(Grid(Closed), InputsAt(points, SUPPLYING, fault, time));
    RadialityMeans(Grid(Closed), InputsAt(points, SUPPLYING, fault, time));
  }

  lemma ExecutedStates(r: RunRecord, req: Request)
    requires OnSchedule(GridLoaded(Closed), r, 6) && Runnable(Grid(Closed), r)
             && HandleExecute(GridLoaded(Closed), r, req).accepted
    ensures var s := HandleExecute(GridLoaded(Closed), r, req).record;
            && StatesOf(s.telemetry) == Restored() && s.run.sources == SUPPLYING && s.run.network == N5
            && s.assessments == r.assessments
  {
    hide Name, Rank, Grid, OnSchedule, HandleExecute, TopologyAt, StatesOf, Isolated, ScheduledStates, NormalSources;
    hide Runnable;
    hide Executable;
    StationIsPermitted(r);
    StationShape(r, 6);
    ScheduledIsIsolated();
    ExecuteWrites(GridLoaded(Closed), r, req);
    RefreshStates(r.telemetry, TIE, Closed, req.time, r.run.revision + 1);
  }

  lemma StationIsFormal(r: RunRecord, k: nat)
    requires OnSchedule(GridLoaded(Closed), r, k)
    ensures r.run.mode == Formal && RunInv(GridLoaded(Closed), r)
  {
    hide RunInv, FaultIsDead, AsSwitched, Grid, BoundarySet;
  }

  /** Executing at the sixth station overloads the alternate feeder. */
  lemma ExecutionOverloads(r: RunRecord, req: Request, time: int)
    requires OnSchedule(GridLoaded(Closed), r, 6) && Runnable(Grid(Closed), r) && WellFormed(Grid(Closed))
             && WellShaped(req)
    requires req.kind == ExecuteRestoration && StepOf(GridLoaded(Closed), FORMAL_DEFINITION, r, req).accepted
    requires FreshAssessment(r, req.commandId)
    ensures Overloaded(StepOf(GridLoaded(Closed), FORMAL_DEFINITION, r, req).record, time)
  {
    hide Name, Rank, Grid, OnSchedule, WellFormed, HandleExecute, TopologyAt, StatesOf, Restored, FreshAssessment;
    hide Runnable, RunInv;
    StationIsPermitted(r);
    StationIsFormal(r, 6);
    ExecutedStates(r, req);
    StepKeepsRun(GridLoaded(Closed), FORMAL_DEFINITION, r, req);
    var s := StepOf(GridLoaded(Closed), FORMAL_DEFINITION, r, req).record;
    RestoredLoad(s.telemetry, ActiveFault(s.run), time);
    OtherCapacity();
  }

  /** The formal schedule, sent request by request from the empty store, ends at N5 with its PERMITTED
      restoration carried out and the alternate feeder carrying 3 kW on a capacity of 2. */
  lemma PermittedOverloads(time: int)
    ensures Ready(SampleEnvironment(), EMPTY) && HistoryOk(Script(7))
    ensures var f := Final(SampleEnvironment(), EMPTY, Script(7)); 0 in f.runs && Overloaded(f.runs[0], time)
  {
    hide Name, Grid, WellFormed, RunInv, StoreInv, Serviceable, EnvironmentOk, Runnable, StepOf, FreshAssessment;
    hide Overloaded;
    hide WellShaped, OnSchedule, HistoryOk, SampleEnvironment;
    var env := SampleEnvironment();
    ScriptReaches(6);
    ScriptReaches(7);
    var s := Final(env, EMPTY, Script(6));
    GridIsWellFormed(Closed);
    ScriptAccepted(Script(6), 6);
    SampleLoaded(s.runs[0]);
    SampleDefinition();
    Sends(env, GridLoaded(Closed), Script(6), 0, Sent(6));
    ExecutionOverloads(s.runs[0], Sent(6), time);
  }

  // ---------------------------------------------------------------- the driver

  /** At the sixth station on the sample network the assessment is PERMITTED, so the driver cannot stop there. */
  lemma DriverCannotStop(s: Tables)
    requires Regression.Station(SampleEnvironment(), s, 0, 6)
    ensures !NotPermitted(s, 0)
  {
    hide OnSchedule, Grid;
    assert LoadedFor(SampleEnvironment(), s.runs[0]) == GridLoaded(Closed);
    StationIsPermitted(s.runs[0]);
  }

  lemma DriverStarts(s: Tables)
    requires Ready(SampleEnvironment(), EMPTY) && s == Initialise(SampleEnvironment(), EMPTY, Beginning()).0
    ensures Regression.Station(SampleEnvironment(), s, 0, 0) && s.results.Keys == {0}
  {
    hide Name, Grid, WellFormed, RunInv, StoreInv, Serviceable, EnvironmentOk, Chosen, NewRecord, Runnable, Initialise;
    hide OnSchedule;
    BeginningIsChosen();
    GridSets(Closed);
    SampleStarts(FORMAL_DEFINITION, Closed, Beginning(), MIDDLE);
    assert [Begin(Beginning())][1..] == [];
    assert s == Final(SampleEnvironment(), EMPTY, [Begin(Beginning())]);
    FreshIsStanding(s.runs[0]);
    assert Standing(s.runs[0], 0);
  }

  /** From an empty store the driver initialises the sample network's FORMAL run and takes it to N5. */
  method DriveSample(actor: string) returns (coordinator: ScenarioCoordinator, verdict: Verdict)
    ensures coordinator.env == SampleEnvironment() && coordinator.Valid()
    ensures verdict == Finished
    ensures Regression.Station(coordinator.env, coordinator.unit.Contents(), 0, 7)
  {
    hide ScenarioUnitOfWork.Contents, ScenarioUnitOfWork.Valid, StoreInv, Serviceable, EnvironmentOk, Initialise;
    hide SampleEnvironment;
    hide Regression.Station, NotPermitted, Reached, Final, HistoryOk, BeginStages;
    ScriptBegins();
    var unit := new ScenarioUnitOfWork();
    coordinator := new ScenarioCoordinator(SampleEnvironment(), unit, {});
    SampleDefinition();
    var started := coordinator.Initialise(Beginning());
    DriverStarts(unit.Contents());
    var commandIds := seq(TURNS, k requires 0 <= k < TURNS => k + 1);
    verdict := RunRegression(coordinator, 0, actor, commandIds, 0);
    if verdict != Finished { DriverCannotStop(unit.Contents()); }
  }
}
