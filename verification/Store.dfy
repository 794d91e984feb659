/** All runs and stored command results, and what each request does to them. */
module Store {
  import opened Ids
  import opened Configuration
  import opened Restoration
  import opened Scenario
  import opened Outage
  import opened Derivation
  import opened Handlers
  import opened RunInvariant
  import opened RunSteps
  import opened RunSafety

  datatype InitialiseRequest = InitialiseRequest(
    commandId: nat, actor: string, mode: Mode, version: string, fault: Option<Id>, time: int)

  /** The content a request digest is computed from. */
  datatype Content = Initialising(init: InitialiseRequest) | Commanding(command: Request)

  datatype CommandResult = CommandResult(
    commandId: nat, accepted: bool, reason: Reason, priorRevision: nat, currentRevision: nat,
    status: RunStatus, newEvents: seq<(nat, int)>, newAssessments: seq<nat>, snapshot: Snapshot)

  datatype Stored = Stored(runId: nat, content: Content, result: CommandResult)

  /** `order` lists the runs as they were inserted. A run, an alarm or an assessment is named after
      the command that created it. */
  datatype Tables = Tables(order: seq<nat>, runs: map<nat, RunRecord>, results: map<nat, Stored>)

  datatype Error =
    | IdentityMismatch | CommandReused | RunNotFound | UnknownVersion | MutableRunExists | NoMutableRun
    | FormalFaultIsFixed | FormalFaultAbsent | IsolationDeviceAbsent
    | ExplorationVersionIsFixed | FaultSelectionRequired | FaultNotASection | DifferentBuild | TransactionFailed

  datatype Reply = Answered(result: CommandResult) | Refused(error: Error)

  datatype Environment = Environment(catalog: map<string, Loaded>, def: Definition, buildId: string)

  const EXPLORATION_VERSION := "1.1"

  // ---------------------------------------------------------------- lookups

  predicate Mutable(r: RunRecord) { r.run.status != RunClosed }

  /** The most recently inserted run that is not closed. */
  function MutableRun(order: seq<nat>, runs: map<nat, RunRecord>): (id: Option<nat>)
    ensures id.Some? ==> id.value in order && id.value in runs && Mutable(runs[id.value])
    ensures id.None? ==> forall k | k in order && k in runs :: !Mutable(runs[k])
  {
    if order == [] then None
    else
      var last := order[|order|-1];
      if last in runs && Mutable(runs[last]) then Some(last) else MutableRun(order[..|order|-1], runs)
  }

  /** The reply to a command identifier that was used before. */
  function Duplicate(s: Tables, commandId: nat, content: Content): Option<Reply> {
    if commandId !in s.results then None
    else if s.results[commandId].content != content then Some(Refused(CommandReused))
    else Some(Answered(s.results[commandId].result))
  }

  /** The fault section a valid initialisation request selects. */
  function SelectedFault(env: Environment, req: InitialiseRequest, c: Network): (r: Result<Id>)
    ensures r.Success? ==> r.value in SectionIds(c)
  {
    if req.mode == Formal then
      if req.fault.Some? && req.fault != Some(env.def.fault) then Failure(FormalFaultIsFixed)
      else if env.def.fault !in SectionIds(c) then Failure(FormalFaultAbsent)
      else if exists d | d in env.def.sequence :: d !in DeviceIds(c) then Failure(IsolationDeviceAbsent)
      else Success(env.def.fault)
    else if req.version != EXPLORATION_VERSION then Failure(ExplorationVersionIsFixed)
    else if req.fault.None? then Failure(FaultSelectionRequired)
    else if req.fault.value !in SectionIds(c) then Failure(FaultNotASection)
    else Success(req.fault.value)
  }

  datatype Result<T> = Success(value: T) | Failure(error: Error)

  // ---------------------------------------------------------------- operations

  function Named(runId: nat, sequences: seq<int>): seq<(nat, int)> {
    seq(|sequences|, k requires 0 <= k < |sequences| => (runId, sequences[k]))
  }

  function Keep(s: Tables, commandId: nat, runId: nat, content: Content, result: CommandResult): Tables {
    s.(results := s.results[commandId := Stored(runId, content, result)])
  }

  function InitialSequences(): seq<int> { [1, 2, 3, 4] }

  function InsertRun(s: Tables, r: RunRecord): Tables {
    s.(order := s.order + [r.run.id], runs := s.runs[r.run.id := r])
  }

  /** Insert a fresh N0 run and store the result that reports it. */
  function Start(env: Environment, s: Tables, l: Loaded, r: RunRecord, owner: nat, content: Content,
                 reason: Reason, prior: nat, earlier: seq<(nat, int)>): (Tables, Reply)
    requires Runnable(l.data, r)
  {
    var result := CommandResult(r.run.id, true, reason, prior, 0, r.run.status,
                                earlier + Named(r.run.id, InitialSequences()), [], SnapshotOf(l, env.def, r));
    (Keep(InsertRun(s, r), r.run.id, owner, content, result), Answered(result))
  }

  /** Every catalogued configuration is well formed and filed under its own version. */
  predicate EnvironmentOk(env: Environment) {
    forall v | v in env.catalog :: WellFormed(env.catalog[v].data) && env.catalog[v].version == v
  }

  /** Every stored run finds its configuration and the rows its handlers look up. */
  predicate Serviceable(env: Environment, s: Tables) {
    forall id | id in s.runs ::
      s.runs[id].run.version in env.catalog && Runnable(env.catalog[s.runs[id].run.version].data, s.runs[id])
  }

  function LoadedFor(env: Environment, r: RunRecord): Loaded
    requires r.run.version in env.catalog
  {
    env.catalog[r.run.version]
  }

  function NewRun(l: Loaded, id: nat, mode: Mode, fault: Id, time: int, buildId: string, actor: string): (r: RunRecord)
    requires WellFormed(l.data) && fault in SectionIds(l.data)
    ensures Runnable(l.data, r) && r.run.id == id
  {
    NewIsRunnable(l, id, mode, fault, time, buildId, actor);
    NewRecord(l, id, mode, fault, time, buildId, actor)
  }

  lemma NewIsRunnable(l: Loaded, id: nat, mode: Mode, fault: Id, time: int, buildId: string, actor: string)
    requires WellFormed(l.data) && fault in SectionIds(l.data)
    ensures Runnable(l.data, NewRecord(l, id, mode, fault, time, buildId, actor))
    ensures NewRecord(l, id, mode, fault, time, buildId, actor).run.id == id
  {
    hide WellFormed, RunInv, TopologyAt, OutageOf, EventsFrom, NormalPoints;
    NewKeeps(l, id, mode, fault, time, buildId, actor);
    RunnableRun(l, NewRecord(l, id, mode, fault, time, buildId, actor));
  }

  /** The configuration and fault section a request asks for, or why it cannot have them. */
  function Chosen(env: Environment, req: InitialiseRequest): (r: Result<(Loaded, Id)>)
    requires EnvironmentOk(env)
    ensures r.Success? ==> WellFormed(r.value.0.data) && r.value.1 in SectionIds(r.value.0.data)
    ensures r.Success? ==> req.version in env.catalog && r.value.0 == env.catalog[req.version]
  {
    if req.version !in env.catalog then Failure(UnknownVersion)
    else
      match SelectedFault(env, req, env.catalog[req.version].data)
      case Failure(e) => Failure(e)
      case Success(fault) => Success((env.catalog[req.version], fault))
  }

  function Initialise(env: Environment, s: Tables, req: InitialiseRequest): (Tables, Reply)
    requires EnvironmentOk(env)
  {
    var duplicate := Duplicate(s, req.commandId, Initialising(req));
    if duplicate.Some? then (s, duplicate.value)
    else if MutableRun(s.order, s.runs).Some? then (s, Refused(MutableRunExists))
    else
      match Chosen(env, req)
      case Failure(e) => (s, Refused(e))
      case Success((l, fault)) =>
        var r := NewRun(l, req.commandId, req.mode, fault, req.time, env.buildId, req.actor);
        Start(env, s, l, r, req.commandId, Initialising(req), RunInitialised, 0, [])
  }

  function CloseRun(s: Tables, p: RunRecord, commandId: nat, actor: string): Tables {
    s.(runs := s.runs[p.run.id := Close(p, commandId, actor, p.run.time)])
  }

  /** Close the current run at its own time and start another from a different request. */
  function InitialiseReplacement(env: Environment, s: Tables, req: InitialiseRequest): (Tables, Reply)
    requires EnvironmentOk(env)
  {
    var duplicate := Duplicate(s, req.commandId, Initialising(req));
    var prior := MutableRun(s.order, s.runs);
    if duplicate.Some? then (s, duplicate.value)
    else if prior.None? then (s, Refused(NoMutableRun))
    else
      match Chosen(env, req)
      case Failure(e) => (s, Refused(e))
      case Success((l, fault)) =>
        var p := s.runs[prior.value];
        if p.run.buildId != env.buildId then (s, Refused(DifferentBuild))
        else
          var r := NewRun(l, req.commandId, req.mode, fault, req.time, env.buildId, req.actor);
          Start(env, CloseRun(s, p, req.commandId, req.actor), l, r, p.run.id, Initialising(req), LinkedRunInitialised,
                p.run.revision, Named(p.run.id, Sequences(p, CloseSpecs(p))))
  }

  function InitialiseNext(env: Environment, s: Tables, req: InitialiseRequest): (Tables, Reply)
    requires EnvironmentOk(env)
  {
    if MutableRun(s.order, s.runs).Some? then InitialiseReplacement(env, s, req) else Initialise(env, s, req)
  }

  function ResultOf(l: Loaded, def: Definition, prior: RunContext, step: Step, req: Request): CommandResult
    requires Runnable(l.data, step.record)
  {
    CommandResult(req.commandId, step.accepted, step.reason, prior.revision, step.record.run.revision,
                  step.record.run.status,
                  Named(prior.id, step.newEvents), step.newAssessments, SnapshotOf(l, def, step.record))
  }

  /** One command addressed to the run `runId`. A reset also starts a clean run from the same inputs. */
  function Execute(env: Environment, s: Tables, runId: nat, req: Request): (Tables, Reply)
    requires EnvironmentOk(env) && Serviceable(env, s) && WellShaped(req)
  {
    var duplicate := Duplicate(s, req.commandId, Commanding(req));
    if req.runId != runId then (s, Refused(IdentityMismatch))
    else if duplicate.Some? then (s, duplicate.value)
    else if runId !in s.runs then (s, Refused(RunNotFound))
    else
      var r := s.runs[runId];
      var l := LoadedFor(env, r);
      var step := StepOf(l, env.def, r, req);
      var stepped := s.(runs := s.runs[runId := step.record]);
      if step.accepted && req.kind == ResetRun then
        FaultIsSection(l.data, r);
        var clean := NewRun(l, req.commandId, r.run.mode, r.run.fault, r.run.initialTime, r.run.buildId, req.actor);
        Start(env, stepped, l, clean, runId, Commanding(req), RunWasReset, r.run.revision, Named(runId, step.newEvents))
      else
        StepRunnable(l, env.def, r, req);
        var result := ResultOf(l, env.def, r.run, step, req);
        (Keep(stepped, req.commandId, runId, Commanding(req), result), Answered(result))
  }

  lemma FaultIsSection(c: Network, r: RunRecord)
    requires Runnable(c, r)
    ensures r.run.fault in SectionIds(c)
  {
  }

  lemma AlarmStepRunnable(l: Loaded, r: RunRecord, req: Request)
    requires Runnable(l.data, r)
    ensures Runnable(l.data, HandleFault(l.data, r, req).record) && Runnable(l.data, HandleAcknowledge(r, req).record)
  {
    hide TopologyAt, OutageOf, EventsFrom, AffectedFeeder, InputsFor, Assess, Projection, BindingMatches;
  }

  lemma SwitchingStepRunnable(l: Loaded, def: Definition, r: RunRecord, req: Request)
    requires Runnable(l.data, r) && WellShaped(req)
    ensures req.kind == OperateIsolationDevice ==> Runnable(l.data, HandleIsolation(l.data, def, r, req).record)
    ensures Runnable(l.data, HandleRestore(l.data, r, req).record)
  {
    hide TopologyAt, OutageOf, EventsFrom, AffectedFeeder, InputsFor, Assess, Projection, BindingMatches;
    hide RestoreGate, TargetAvailable, IsolatedIn, GateTopology;
  }

  lemma RestorationStepRunnable(l: Loaded, r: RunRecord, req: Request)
    requires Runnable(l.data, r)
    ensures Runnable(l.data, HandleAssess(l, r, req).record) && Runnable(l.data, HandleExecute(l, r, req).record)
  {
    hide TopologyAt, OutageOf, EventsFrom, AffectedFeeder, InputsFor, Assess, Projection, BindingMatches;
    hide AssessGate;
  }

  /** The rows the handlers look up stay in place. */
  lemma StepRunnable(l: Loaded, def: Definition, r: RunRecord, req: Request)
    requires Runnable(l.data, r) && WellShaped(req)
    ensures Runnable(l.data, StepOf(l, def, r, req).record)
  {
    hide HandleFault, HandleAcknowledge, HandleIsolation, HandleRestore, HandleAssess, HandleExecute, Close;
    AlarmStepRunnable(l, r, req);
    SwitchingStepRunnable(l, def, r, req);
    RestorationStepRunnable(l, r, req);
    CloseShape(r, req.commandId, req.actor, req.time);
  }

  // ---------------------------------------------------------------- histories

  datatype Operation =
    | Begin(init: InitialiseRequest) | Replace(init: InitialiseRequest) | Continue(init: InitialiseRequest)
    | Command(runId: nat, command: Request)

  predicate OperationOk(op: Operation) { op.Command? ==> WellShaped(op.command) }

  function CommandIdOf(op: Operation): nat { if op.Command? then op.command.commandId else op.init.commandId }

  function Apply(env: Environment, s: Tables, op: Operation): (Tables, Reply)
    requires EnvironmentOk(env) && Serviceable(env, s) && OperationOk(op)
  {
    match op
    case Begin(req) => Initialise(env, s, req)
    case Replace(req) => InitialiseReplacement(env, s, req)
    case Continue(req) => InitialiseNext(env, s, req)
    case Command(runId, req) => Execute(env, s, runId, req)
  }
}
