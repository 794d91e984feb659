/** What each scenario command does to the record of its run, as functions of that record. */
module Handlers {
  import opened Ids
  import opened Configuration
  import opened Topology
  import opened Telemetry
  import opened Outage
  import opened Restoration
  import opened Derivation
  import opened Scenario

  // ---------------------------------------------------------------- shared derivations

  function AffectedFeeder(c: Network, fault: Id): Option<Feeder> {
    match SectionById(c, fault)
    case None => None
    case Some(s) => FeederById(c, s.feederId)
  }

  /** The lookups every handler makes succeed. */
  predicate Runnable(c: Network, r: RunRecord) {
    && AffectedFeeder(c, r.run.fault).Some?
    && AffectedFeeder(c, r.run.fault).value.breakerId in r.telemetry
    && r.run.revision in r.outages
  }

  function BreakerId(c: Network, r: RunRecord): Id
    requires Runnable(c, r)
  {
    AffectedFeeder(c, r.run.fault).value.breakerId
  }

  function ActiveFault(run: RunContext): Option<Id> { if run.faultActive then Some(run.fault) else None }

  /** Topology derived from the run's current telemetry at `time`. */
  function GateTopology(c: Network, r: RunRecord, time: int): TopologyResult {
    TopologyAt(c, r.telemetry, r.run.sources, ActiveFault(r.run), time)
  }

  function Refresh(points: map<Id, Point>, d: Id, value: SwitchState, time: int, revision: nat): map<Id, Point> {
    points[d := Point(value, Good, time, revision)]
  }

  /** Store `run` and `points`, and the snapshots derived from them for the new revision. */
  function Advance(c: Network, r: RunRecord, run: RunContext, points: map<Id, Point>): RunRecord
    requires r.run.revision in r.outages
  {
    var t := TopologyAt(c, points, run.sources, ActiveFault(run), run.time);
    var o := OutageOf(c, t, Some(r.outages[r.run.revision]));
    r.(run := run, telemetry := points, topologies := r.topologies[run.revision := t],
       outages := r.outages[run.revision := o])
  }

  // ---------------------------------------------------------------- events

  function MaxSequence(events: seq<Event>): nat {
    if events == [] then 0
    else
      var m := MaxSequence(events[..|events|-1]);
      if events[|events|-1].sequence > m then events[|events|-1].sequence else m
  }

  function EventsFrom(run: RunContext, first: nat, command: nat, actor: string, specs: seq<EventSpec>): seq<Event> {
    seq(|specs|, k requires 0 <= k < |specs| => Event(first + k, run.time, run.revision, specs[k], command, actor))
  }

  function Record(r: RunRecord, command: nat, actor: string, specs: seq<EventSpec>): RunRecord {
    r.(events := r.events + EventsFrom(r.run, MaxSequence(r.events) + 1, command, actor, specs))
  }

  function Sequences(r: RunRecord, specs: seq<EventSpec>): seq<int> {
    seq(|specs|, k requires 0 <= k < |specs| => MaxSequence(r.events) + 1 + k)
  }

  function Spec(kind: EventKind, entity: Option<Id>): EventSpec { EventSpec(kind, entity, None, None) }

  function DerivedSpecs(assessment: Option<nat>): seq<EventSpec> {
    [EventSpec(TopologyRecalculated, None, None, assessment), EventSpec(OutageUpdated, None, None, assessment)]
  }

  function SwitchingSpecs(d: Id, assessment: Option<nat>): seq<EventSpec> {
    [EventSpec(SwitchingAction, Some(d), None, assessment),
     EventSpec(TelemetryUpdated, Some(d), None, assessment),
     EventSpec(DeviceStateChange, Some(d), None, assessment)] + DerivedSpecs(assessment)
  }

  function Accept(r: RunRecord, req: Request, reason: Reason, specs: seq<EventSpec>, assessments: seq<nat>): Step {
    Step(Record(r, req.commandId, req.actor, specs), true, reason, Sequences(r, specs), assessments)
  }

  function Reject(r: RunRecord, reason: Reason): Step { Step(r, false, reason, [], []) }

  // ---------------------------------------------------------------- fault and alarm

  function FaultedRecord(c: Network, r: RunRecord, req: Request): RunRecord
    requires Runnable(c, r)
  {
    var b := BreakerId(c, r);
    var run := r.run.(time := req.time, revision := r.run.revision + 1, stage := PostFault,
                      network := N1, status := Active, faultActive := true);
    Advance(c, r, run, Refresh(r.telemetry, b, Open, req.time, run.revision))
      .(alarms := r.alarms + [Alarm(req.commandId, b, true, false, req.time, None, None)])
  }

  function HandleFault(c: Network, r: RunRecord, req: Request): Step
    requires Runnable(c, r)
  {
    var b := BreakerId(c, r);
    if r.run.network != N0 || r.run.faultActive then Reject(r, FaultInitiationUnavailable)
    else if r.telemetry[b].value != Closed then Reject(r, AffectedBreakerNotClosed)
    else
      Accept(FaultedRecord(c, r, req), req, FaultWasInitiated,
             [Spec(FaultInitiated, Some(r.run.fault)), Spec(TelemetryUpdated, Some(b)),
               Spec(DeviceStateChange, Some(b)),
              EventSpec(AlarmGenerated, Some(b), Some(req.commandId), None)] + DerivedSpecs(None), [])
  }

  predicate Acknowledgeable(a: Alarm) { a.active && !a.acknowledged }

  /** The position of the alarm with this identifier, or the number of alarms. */
  function AlarmIndex(alarms: seq<Alarm>, id: Option<nat>): (k: nat)
    ensures k <= |alarms|
    ensures k < |alarms| ==> Some(alarms[k].id) == id
    ensures forall j | 0 <= j < k :: Some(alarms[j].id) != id
  {
    if alarms == [] || Some(alarms[0].id) == id then 0 else 1 + AlarmIndex(alarms[1..], id)
  }

  function HandleAcknowledge(r: RunRecord, req: Request): Step {
    var k := AlarmIndex(r.alarms, req.alarm);
    if k == |r.alarms| || !Acknowledgeable(r.alarms[k]) then Reject(r, AcknowledgementUnavailable)
    else
      var alarm := r.alarms[k].(acknowledged := true, acknowledgedAt := Some(req.time),
                                acknowledgedBy := Some(req.actor));
      Accept(r.(alarms := r.alarms[k := alarm], run := r.run.(time := req.time)), req, AlarmWasAcknowledged,
             [EventSpec(AlarmAcknowledged, Some(alarm.device), Some(alarm.id), None)], [])
  }

  // ---------------------------------------------------------------- isolation

  /** The place a table filled device by device keeps for `d`: of several the last one, and for a device
      that is not listed the number of entries. */
  function IndexIn(sequence: seq<Id>, d: Id): nat {
    if d !in sequence then |set x | x in sequence|
    else if sequence[|sequence|-1] == d then |sequence| - 1
    else IndexIn(sequence[..|sequence|-1], d)
  }

  /** FORMAL order: place in the procedure, then identifier. */
  predicate ProcedureLeq(sequence: seq<Id>, x: Id, y: Id) {
    var i, j := IndexIn(sequence, x), IndexIn(sequence, y);
    i < j || (i == j && IdLeq(x, y))
  }

  function ProcedureOrder(sequence: seq<Id>): (Id, Id) -> bool { (x, y) => ProcedureLeq(sequence, x, y) }

  function OrderedBoundaries(def: Definition, mode: Mode, boundaries: seq<Id>): seq<Id> {
    if mode == Exploration then Sort(boundaries, IdLeq)
    else Sort(boundaries, ProcedureOrder(def.sequence))
  }

  /** The evaluation kept for a device: of several the last one, as when a table is filled by device. */
  function EvaluationOf(evaluations: seq<BoundaryEvaluation>, d: Id): Option<BoundaryEvaluation> {
    if evaluations == [] then None
    else if evaluations[|evaluations|-1].device == d then Some(evaluations[|evaluations|-1])
    else EvaluationOf(evaluations[..|evaluations|-1], d)
  }

  /** The first device in order that is not proven open, if it is proven closed. */
  function NextTarget(ordered: seq<Id>, evaluations: seq<BoundaryEvaluation>): Option<Id> {
    if ordered == [] then None
    else
      match EvaluationOf(evaluations, ordered[0])
      case None => None
      case Some(e) =>
        match e.status
        case ProvenOpen => NextTarget(ordered[1..], evaluations)
        case ProvenClosed => Some(ordered[0])
        case Unproven => None
  }

  function NextIsolationTarget(def: Definition, run: RunContext, t: TopologyResult): Option<Id> {
    if run.network != N1 || t.proof.None? then None
    else NextTarget(OrderedBoundaries(def, run.mode, t.proof.value.boundaries), t.proof.value.evaluations)
  }

  function FirstEvaluationOf(evaluations: seq<BoundaryEvaluation>, d: Id): Option<BoundaryEvaluation> {
    if evaluations == [] then None
    else if evaluations[0].device == d then Some(evaluations[0])
    else FirstEvaluationOf(evaluations[1..], d)
  }

  predicate ExplorationGate(run: RunContext, t: TopologyResult, target: Option<Id>) {
    && run.network == N1 && t.proof.Some? && target.Some?
    && target.value in t.proof.value.boundaries
    && (var e := FirstEvaluationOf(t.proof.value.evaluations, target.value);
        e.Some? && e.value.status == ProvenClosed)
  }

  predicate TargetAvailable(def: Definition, run: RunContext, t: TopologyResult, target: Option<Id>) {
    if run.mode == Exploration then ExplorationGate(run, t, target)
    else target == NextIsolationTarget(def, run, t)
  }

  function IsolatedRecord(c: Network, r: RunRecord, target: Id, time: int): RunRecord
    requires Runnable(c, r)
  {
    var points := Refresh(r.telemetry, target, Open, time, r.run.revision + 1);
    var isolated := IsolatedIn(TopologyAt(c, points, r.run.sources, ActiveFault(r.run), time));
    var run := r.run.(time := time, revision := r.run.revision + 1, status := Active,
                      stage := if isolated then FaultIsolated else Isolating,
                      network := if isolated then N2 else N1);
    Advance(c, r, run, points)
  }

  function HandleIsolation(c: Network, def: Definition, r: RunRecord, req: Request): Step
    requires Runnable(c, r) && WellShaped(req) && req.kind == OperateIsolationDevice
  {
    if req.state != Some(Open) || !TargetAvailable(def, r.run, GateTopology(c, r, req.time), req.target)
    then Reject(r, IsolationActionUnavailable)
    else
      var after := IsolatedRecord(c, r, req.target.value, req.time);
      Accept(after, req, if after.run.network == N2 then FaultWasIsolated else IsolationAccepted,
             SwitchingSpecs(req.target.value, None), [])
  }

  // ---------------------------------------------------------------- normal source

  function HealthyEnergised(t: TopologyResult): set<Id> {
    set s | s in t.sections && t.sections[s].energised && !t.sections[s].faulted
  }

  /** EXPLORATION: reclosing keeps the isolation proof and energises some healthy section. */
  predicate RecloseAvailable(c: Network, r: RunRecord, time: int)
    requires Runnable(c, r)
  {
    var b := BreakerId(c, r);
    var proposed := TopologyAt(c, Refresh(r.telemetry, b, Closed, time, r.run.revision + 1), r.run.sources,
                               ActiveFault(r.run), time);
    && r.telemetry[b].value == Open
    && IsolatedIn(proposed)
    && HealthyEnergised(proposed) - HealthyEnergised(GateTopology(c, r, time)) != {}
  }

  predicate RestoreGate(c: Network, r: RunRecord, time: int)
    requires Runnable(c, r)
  {
    && r.run.network == N2 && IsolatedIn(GateTopology(c, r, time))
    && (r.run.mode == Formal || RecloseAvailable(c, r, time))
  }

  function RestoredRecord(c: Network, r: RunRecord, time: int): RunRecord
    requires Runnable(c, r)
  {
    var run := r.run.(time := time, revision := r.run.revision + 1, stage := UpstreamRestored, network := N3,
                      status := Active);
    Advance(c, r, run, Refresh(r.telemetry, BreakerId(c, r), Closed, time, run.revision))
  }

  function HandleRestore(c: Network, r: RunRecord, req: Request): Step
    requires Runnable(c, r)
  {
    var b := BreakerId(c, r);
    if !(RestoreGate(c, r, req.time) && req.target == Some(b) && req.state == Some(Closed))
      then Reject(r, RestoreUnavailable)
    else if r.telemetry[b].value != Open then Reject(r, SourceBreakerNotOpen)
    else Accept(RestoredRecord(c, r, req.time), req, SourceRestored, SwitchingSpecs(b, None), [])
  }

  // ---------------------------------------------------------------- assessment

  function InvalidatedIds(r: RunRecord): set<nat> { set i | i in r.invalidations :: i.assessment }

  predicate LastInvalidated(r: RunRecord) {
    r.assessments != [] && r.assessments[|r.assessments|-1].id in InvalidatedIds(r)
  }

  function MaxAssessmentSequence(assessments: seq<Assessment>): nat {
    if assessments == [] then 0
    else
      var m := MaxAssessmentSequence(assessments[..|assessments|-1]);
      if assessments[|assessments|-1].sequence > m then assessments[|assessments|-1].sequence else m
  }

  /** Isolated at N2 in EXPLORATION with no safe reclose to do first. */
  predicate IsolatedWithoutReclose(c: Network, r: RunRecord, time: int)
    requires Runnable(c, r)
  {
    r.run.mode == Exploration && r.run.network == N2 && IsolatedIn(GateTopology(c, r, time))
      && !RecloseAvailable(c, r, time)
  }

  predicate AssessGate(c: Network, r: RunRecord, time: int)
    requires Runnable(c, r)
  {
    || r.run.network == N3
    || IsolatedWithoutReclose(c, r, time)
    || (r.run.network == N4 && LastInvalidated(r))
  }

  function InputsFor(c: Network, r: RunRecord, time: int, id: nat, sequence: nat): AssessmentInputs {
    var t := GateTopology(c, r, time);
    AssessmentInputs(id, sequence, r.run.id, r.run.revision, time, r.run.fault, r.telemetry, r.run.sources, t,
                     OutageOf(c, t, None))
  }

  /** The assessment the run would get at `time`. */
  function Projection(l: Loaded, r: RunRecord, time: int): Assessment { Assess(l, InputsFor(l.data, r, time, 0, 1)) }

  function AssessedRecord(l: Loaded, r: RunRecord, time: int, id: nat): RunRecord {
    r.(run := r.run.(time := time, stage := RestorationAssessed, network := N4),
       assessments := r.assessments
         + [Assess(l, InputsFor(l.data, r, time, id, MaxAssessmentSequence(r.assessments) + 1))])
  }

  function TieOf(a: Assessment): Option<Id> { if a.candidate.Some? then Some(a.candidate.value.tie) else None }

  function HandleAssess(l: Loaded, r: RunRecord, req: Request): Step
    requires Runnable(l.data, r)
  {
    if !AssessGate(l.data, r, req.time) then Reject(r, AssessmentUnavailable)
    else
      var after := AssessedRecord(l, r, req.time, req.commandId);
      var a := after.assessments[|after.assessments|-1];
      Accept(after, req, AssessmentRecorded(a.outcome),
             [EventSpec(if a.candidate.Some? then CandidateIdentified else CandidateAbsent, TieOf(a), None, Some(a.id)),
              EventSpec(Assessed, TieOf(a), None, Some(a.id))], [a.id])
  }

  // ---------------------------------------------------------------- execution

  /** The stored assessment still describes the run: same evidence, same candidate, still PERMITTED. */
  predicate BindingMatches(a: Assessment, p: Assessment) {
    && a.runId == p.runId && a.configurationId == p.configurationId && a.revision == p.revision
    && a.telemetry == p.telemetry && a.sources == p.sources
    && a.candidate.Some? && p.candidate.Some? && a.candidate.value.key == p.candidate.value.key
    && p.outcome == Permitted
  }

  predicate Executable(r: RunRecord) {
    && r.assessments != [] && r.run.network == N4
    && (var a := r.assessments[|r.assessments|-1];
        a.id !in InvalidatedIds(r) && a.outcome == Permitted && a.candidate.Some?)
  }

  function CurrentTie(r: RunRecord): Id
    requires Executable(r)
  {
    r.assessments[|r.assessments|-1].candidate.value.tie
  }

  function InvalidatedRecord(r: RunRecord, req: Request): RunRecord
    requires Executable(r)
  {
    var a := r.assessments[|r.assessments|-1];
    var moved := r.(run := r.run.(time := req.time));
    Record(moved, req.commandId, req.actor, [EventSpec(AssessmentInvalidated, Some(CurrentTie(r)), None, Some(a.id))])
      .(invalidations := r.invalidations + [Invalidation(a.id, r.run.revision, req.time, EvidenceNoLongerCurrent,
                                                         MaxSequence(r.events) + 1)])
  }

  function ExecutedRecord(c: Network, r: RunRecord, time: int): RunRecord
    requires Runnable(c, r) && Executable(r)
  {
    var run := r.run.(time := time, revision := r.run.revision + 1, stage := RestorationExecuted, network := N5,
                      status := RunComplete);
    Advance(c, r, run, Refresh(r.telemetry, CurrentTie(r), Closed, time, run.revision))
  }

  function HandleExecute(l: Loaded, r: RunRecord, req: Request): Step
    requires Runnable(l.data, r)
  {
    if !Executable(r) || req.assessment != Some(r.assessments[|r.assessments|-1].id)
      then Reject(r, ExecutionUnavailable)
    else
      var a := r.assessments[|r.assessments|-1];
      if !BindingMatches(a, Projection(l, r, req.time)) then
        Step(InvalidatedRecord(r, req), false, AssessmentNoLongerValid, [MaxSequence(r.events) + 1], [])
      else if CurrentTie(r) !in r.telemetry || r.telemetry[CurrentTie(r)].value != Open then Reject(r, TieNotOpen)
      else Accept(ExecutedRecord(l.data, r, req.time), req, RestorationDone,
                  SwitchingSpecs(CurrentTie(r), Some(a.id)), [])
  }

  // ---------------------------------------------------------------- closing and creating runs

  function LastToInvalidate(r: RunRecord): Option<Assessment> {
    if r.assessments != [] && r.assessments[|r.assessments|-1].id !in InvalidatedIds(r)
    then Some(r.assessments[|r.assessments|-1]) else None
  }

  function CloseSpecs(r: RunRecord): seq<EventSpec> {
    match LastToInvalidate(r)
    case None => [Spec(ScenarioReset, None)]
    case Some(a) => [EventSpec(AssessmentInvalidated, TieOf(a), None, Some(a.id)), Spec(ScenarioReset, None)]
  }

  /** Close the run, invalidate its last assessment if it still stands, and keep its history. */
  function Close(r: RunRecord, command: nat, actor: string, time: int): RunRecord {
    var closed := r.(run := r.run.(time := time, status := RunClosed));
    var recorded := Record(closed, command, actor, CloseSpecs(r));
    match LastToInvalidate(r)
    case None => recorded
    case Some(a) =>
      recorded.(invalidations := r.invalidations + [Invalidation(a.id, r.run.revision, time, ByReset,
        MaxSequence(r.events) + 1)])
  }

  function NormalPoints(c: Network, time: int): map<Id, Point> {
    map d | d in DeviceIds(c) :: Point(DeviceById(c, d).value.normalState, Good, time, 0)
  }

  function NormalSources(c: Network): Sources {
    map s | s in SourceIds(c) :: SourceById(c, s).value.normalAvailability
  }

  const INITIAL_SPECS: seq<EventSpec> :=
    [Spec(ScenarioInitialised, None), Spec(ConfigurationSelected, None), Spec(TopologyRecalculated, None),
      Spec(OutageUpdated, None)]

  /** A fresh N0 run on normal telemetry, with its revision-0 snapshots and initial events. */
  function NewRecord(l: Loaded, id: nat, mode: Mode, fault: Id, time: int, buildId: string, actor: string): RunRecord {
    var c := l.data;
    var run := RunContext(id, mode, l.configurationId, l.version, fault, time, time, 0, Normal, N0, buildId,
                          Initialised, false, NormalSources(c));
    var points := NormalPoints(c, time);
    var t := TopologyAt(c, points, run.sources, None, time);
    Record(RunRecord(run, points, [], [], map[0 := t], map[0 := OutageOf(c, t, None)], [], []), id, actor,
           INITIAL_SPECS)
  }

  // ---------------------------------------------------------------- one command on one run

  function GuardReason(r: RunRecord, req: Request): Option<Reason> {
    if req.expectedRevision != r.run.revision then Some(StaleExpectedRevision)
    else if req.time < r.run.time then Some(ScenarioTimeBeforeCurrent)
    else if r.run.status == RunClosed then Some(RunIsClosed)
    else None
  }

  /** The handler of a command other than RESET_RUN, after the common guards have passed. */
  function Handle(l: Loaded, def: Definition, r: RunRecord, req: Request): Step
    requires Runnable(l.data, r) && WellShaped(req) && req.kind != ResetRun
  {
    match req.kind
    case InitiateFault => HandleFault(l.data, r, req)
    case AcknowledgeAlarm => HandleAcknowledge(r, req)
    case OperateIsolationDevice => HandleIsolation(l.data, def, r, req)
    case RestoreNormalSource => HandleRestore(l.data, r, req)
    case AssessRestoration => HandleAssess(l, r, req)
    case ExecuteRestoration => HandleExecute(l, r, req)
  }

  function HandleReset(r: RunRecord, req: Request): Step {
    Step(Close(r, req.commandId, req.actor, req.time), true, RunWasReset, Sequences(r, CloseSpecs(r)), [])
  }

  /** What one command does to the run it addresses. */
  function StepOf(l: Loaded, def: Definition, r: RunRecord, req: Request): Step
    requires Runnable(l.data, r) && WellShaped(req)
  {
    var g := GuardReason(r, req);
    if g.Some? then Reject(r, g.value)
    else if req.kind == ResetRun then HandleReset(r, req)
    else Handle(l, def, r, req)
  }

  // ---------------------------------------------------------------- advertised actions

  function AlarmActions(alarms: seq<Alarm>, mutable: bool): seq<Action> {
    if alarms == [] then []
    else
      (if Acknowledgeable(alarms[0]) then [Action(AcknowledgeAlarm, None, None, Some(alarms[0].id), None, mutable)]
                                          else [])
      + AlarmActions(alarms[1..], mutable)
  }

  function IsolationActions(def: Definition, run: RunContext, t: TopologyResult, devices: seq<Id>,
      mutable: bool): seq<Action> {
    if devices == [] then []
    else
      [Action(OperateIsolationDevice, Some(devices[0]), Some(Open), None, None,
              mutable && TargetAvailable(def, run, t, Some(devices[0])))]
      + IsolationActions(def, run, t, devices[1..], mutable)
  }

  /** The boundary devices for which an isolation action is listed. */
  function ListedBoundaries(def: Definition, run: RunContext, t: TopologyResult): seq<Id> {
    if t.proof.Some? then OrderedBoundaries(def, run.mode, t.proof.value.boundaries)
    else if run.mode == Formal then def.sequence
    else []
  }

  /** The current assessment may be executed now, by the projection at the run's own time. */
  predicate CurrentlyExecutable(l: Loaded, r: RunRecord) {
    && r.assessments != []
    && (var a := r.assessments[|r.assessments|-1];
        && a.outcome == Permitted && a.candidate.Some? && a.id !in InvalidatedIds(r)
        && BindingMatches(a, Projection(l, r, r.run.time)))
  }

  function FaultActions(run: RunContext): seq<Action> {
    [Action(InitiateFault, None, None, None, None, run.status != RunClosed && run.network == N0 && !run.faultActive)]
  }

  function AcknowledgementActions(r: RunRecord): seq<Action> {
    var alarms := AlarmActions(r.alarms, r.run.status != RunClosed);
    if alarms == [] then [Action(AcknowledgeAlarm, None, None, None, None, false)] else alarms
  }

  /** The actions listed once each: reclose, assess, execute and reset. */
  function SingleActions(l: Loaded, r: RunRecord): seq<Action>
    requires Runnable(l.data, r)
  {
    var c, run := l.data, r.run;
    var mutable := run.status != RunClosed;
    [Action(RestoreNormalSource, Some(BreakerId(c, r)), Some(Closed), None, None, mutable
            && RestoreGate(c, r, run.time)),
     Action(AssessRestoration, None, None, None, None, mutable && AssessGate(c, r, run.time)),
     Action(ExecuteRestoration, None, None, None,
            if r.assessments == [] then None else Some(r.assessments[|r.assessments|-1].id),
            mutable && run.network == N4 && CurrentlyExecutable(l, r)),
     Action(ResetRun, None, None, None, None, mutable)]
  }

  function AllowedActions(l: Loaded, def: Definition, r: RunRecord): seq<Action>
    requires Runnable(l.data, r)
  {
    var t := GateTopology(l.data, r, r.run.time);
    FaultActions(r.run) + AcknowledgementActions(r)
    + IsolationActions(def, r.run, t, ListedBoundaries(def, r.run, t), r.run.status != RunClosed)
    + SingleActions(l, r)
  }

  function SnapshotOf(l: Loaded, def: Definition, r: RunRecord): Snapshot
    requires Runnable(l.data, r)
  {
    Snapshot(r.run, r.telemetry, map d | d in r.telemetry :: Classify(r.telemetry[d], r.run.time), r.alarms,
             GateTopology(l.data, r, r.run.time), r.outages[r.run.revision], r.events,
             r.assessments, r.invalidations, AllowedActions(l, def, r))
  }
}
