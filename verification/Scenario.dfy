/** The records of one scenario run, and the requests and results exchanged with it. */
module Scenario {
  import opened Ids
  import opened Configuration
  import opened Topology
  import opened Telemetry
  import opened Outage
  import opened Restoration

  datatype Mode = Formal | Exploration
  datatype RunStatus = Initialised | Active | RunComplete | RunClosed
  datatype Stage =
    | Normal | PostFault | Isolating | FaultIsolated | UpstreamRestored | RestorationAssessed
    | RestorationExecuted
  datatype NetworkState = N0 | N1 | N2 | N3 | N4 | N5

  /** The fault section and the isolation order of the FORMAL workflow. */
  datatype Definition = Definition(fault: Id, sequence: seq<Id>)

  datatype RunContext = RunContext(
    id: nat, mode: Mode, configurationId: string, version: string, fault: Id,
    initialTime: int, time: int, revision: nat, stage: Stage, network: NetworkState,
    buildId: string, status: RunStatus, faultActive: bool, sources: Sources)

  datatype Alarm = Alarm(
    id: nat, device: Id, active: bool, acknowledged: bool, generated: int,
    acknowledgedAt: Option<int>, acknowledgedBy: Option<string>)

  datatype EventKind =
    | ScenarioInitialised | ConfigurationSelected | TopologyRecalculated | OutageUpdated
    | FaultInitiated | TelemetryUpdated | DeviceStateChange | AlarmGenerated | AlarmAcknowledged
    | SwitchingAction | CandidateIdentified | CandidateAbsent | Assessed | AssessmentInvalidated | ScenarioReset

  datatype EventSpec = EventSpec(kind: EventKind, entity: Option<Id>, alarm: Option<nat>, assessment: Option<nat>)
  datatype Event = Event(
    sequence: nat, time: int, revision: nat, spec: EventSpec, command: nat, actor: string)

  datatype InvalidationReason = ByReset | EvidenceNoLongerCurrent
  datatype Invalidation = Invalidation(assessment: nat, revision: nat, time: int, reason: InvalidationReason,
                                       event: nat)

  /** Every row the run-scoped tables hold for one run. */
  datatype RunRecord = RunRecord(
    run: RunContext, telemetry: map<Id, Point>, alarms: seq<Alarm>, events: seq<Event>,
    topologies: map<nat, TopologyResult>, outages: map<nat, OutageResult>,
    assessments: seq<Assessment>, invalidations: seq<Invalidation>)

  datatype CommandType =
    | InitiateFault | AcknowledgeAlarm | OperateIsolationDevice | RestoreNormalSource
    | AssessRestoration | ExecuteRestoration | ResetRun

  datatype Request = Request(
    commandId: nat, runId: nat, actor: string, expectedRevision: nat, kind: CommandType, time: int,
    target: Option<Id>, state: Option<SwitchState>, alarm: Option<nat>, assessment: Option<nat>)

  /** The shape rules a request has passed before the coordinator sees it. */
  predicate WellShaped(req: Request) {
    var switching := req.kind == OperateIsolationDevice || req.kind == RestoreNormalSource;
    && (switching <==> req.target.Some?)
    && (switching <==> req.state.Some?)
    && (req.kind == AcknowledgeAlarm <==> req.alarm.Some?)
    && (req.kind == ExecuteRestoration <==> req.assessment.Some?)
  }

  datatype Reason =
    | StaleExpectedRevision | ScenarioTimeBeforeCurrent | RunIsClosed
    | FaultInitiationUnavailable | AffectedBreakerNotClosed | AcknowledgementUnavailable
    | IsolationActionUnavailable | RestoreUnavailable | SourceBreakerNotOpen
    | AssessmentUnavailable | ExecutionUnavailable | AssessmentNoLongerValid | TieNotOpen
    | RunInitialised | LinkedRunInitialised | FaultWasInitiated | AlarmWasAcknowledged | FaultWasIsolated
    | IsolationAccepted
    | SourceRestored | AssessmentRecorded(outcome: Restoration.Outcome) | RestorationDone | RunWasReset

  /** What handling one command did to the run it addresses. */
  datatype Step = Step(record: RunRecord, accepted: bool, reason: Reason, newEvents: seq<int>, newAssessments: seq<nat>)

  datatype Action = Action(
    kind: CommandType, target: Option<Id>, state: Option<SwitchState>,
    alarm: Option<nat>, assessment: Option<nat>, available: bool)

  datatype Snapshot = Snapshot(
    run: RunContext, telemetry: map<Id, Point>, validity: map<Id, Validity>, alarms: seq<Alarm>,
    topology: TopologyResult, outage: OutageResult, events: seq<Event>,
    assessments: seq<Assessment>, invalidations: seq<Invalidation>, actions: seq<Action>)
}
