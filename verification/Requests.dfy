/** What each request to the store is answered and what it writes, from the refusals down to the fresh run. */
module Requests {
  import opened Ids
  import opened Configuration
  import opened Topology
  import opened Telemetry
  import opened Outage
  import opened Restoration
  import opened Derivation
  import opened Scenario
  import opened Handlers
  import opened RunInvariant
  import opened RunPreservation
  import opened RunSteps
  import opened Advertised
  import opened Acceptance
  import opened Effects
  import opened RunFacts
  import opened Store
  import opened StoreFacts
  import opened Histories

  // ---------------------------------------------------------------- a command identifier used before

  /** A request that uses a stored command identifier changes nothing: the same content gets the stored result
      again, other content is refused. */
  lemma UsedIdentifier(env: Environment, s: Tables, op: Operation)
    requires Ready(env, s) && OperationOk(op) && CommandIdOf(op) in s.results
    requires op.Command? ==> op.command.runId == op.runId
    ensures Apply(env, s, op) == (s, if s.results[CommandIdOf(op)].content == ContentOf(op)
                                     then Answered(s.results[CommandIdOf(op)].result) else Refused(CommandReused))
  {
    hide StoreInv, EnvironmentOk, Serviceable, Initialise, InitialiseReplacement, Execute, CloseRun, StepOf;
    match op
    case Begin(req) => InitialiseShape(env, s, req);
    case Replace(req) => ReplacementShape(env, s, req);
    case Continue(req) => InitialiseShape(env, s, req); ReplacementShape(env, s, req);
    case Command(runId, req) => ExecuteShape(env, s, runId, req);
  }

  /** Once an identifier was answered, a request with other content under it is refused at every later point of
      every history, and every table stays as it was. */
  lemma ReuseIsRefused(env: Environment, s: Tables, op: Operation, h: seq<Operation>, other: Operation)
    requires Ready(env, s) && OperationOk(op) && HistoryOk(h) && Apply(env, s, op).1.Answered?
    requires CommandIdOf(op) !in s.results && OperationOk(other) && CommandIdOf(other) == CommandIdOf(op)
    requires ContentOf(other) != ContentOf(op) && (other.Command? ==> other.command.runId == other.runId)
    ensures Ready(env, Apply(env, s, op).0)
    ensures var later := Final(env, Apply(env, s, op).0, h); Apply(env, later, other) == (later, Refused(CommandReused))
  {
    hide Apply, StoreInv, Serviceable, EnvironmentOk;
    ReadyAfter(env, s, op);
    StoredAnswers(env, s, op);
    ResultsLast(env, Apply(env, s, op).0, h, CommandIdOf(op));
    UsedIdentifier(env, Final(env, Apply(env, s, op).0, h), other);
  }

  // ---------------------------------------------------------------- commands

  /** A command sent to another run than it names, or to a run that is not there, is refused. */
  lemma Misaddressed(env: Environment, s: Tables, runId: nat, req: Request)
    requires Ready(env, s) && WellShaped(req)
    ensures req.runId != runId ==> Execute(env, s, runId, req) == (s, Refused(IdentityMismatch))
    ensures req.runId == runId && req.commandId !in s.results && runId !in s.runs ==>
              Execute(env, s, runId, req) == (s, Refused(RunNotFound))
  {
    hide StoreInv, EnvironmentOk, StepOf, NewRecord, SnapshotOf;
  }

  /** The stored run a fresh command addresses, with its configuration and everything that holds of it. */
  ghost predicate Addresses(env: Environment, s: Tables, runId: nat, req: Request) {
    Ready(env, s) && WellShaped(req) && req.runId == runId && runId in s.runs && req.commandId !in s.results
  }

  lemma Addressed(env: Environment, s: Tables, runId: nat, req: Request)
    requires Addresses(env, s, runId, req)
    ensures s.runs[runId].run.version in env.catalog && s.runs[runId].run.id == runId
    ensures var l := LoadedFor(env, s.runs[runId]);
            WellFormed(l.data) && RunInv(l, s.runs[runId]) && Runnable(l.data, s.runs[runId])
            && l.version == s.runs[runId].run.version
  {
    hide RunInv, WellFormed, StepOf, RunOk, Serviceable, NewRecord;
    assert EnvironmentOk(env) && StoreInv(env, s);
    RunAt(env, s, runId, req.commandId);
    InvariantOf(env, s.runs[runId]);
  }

  /** A fresh command is accepted exactly when it passes the guards of its run and meets what its kind
      requires there; one that is refused is told why and, unless an assessment has lost its evidence, leaves
      every run as it was. */
  lemma CommandAnswered(env: Environment, s: Tables, runId: nat, req: Request)
    requires Addresses(env, s, runId, req)
    ensures s.runs[runId].run.version in env.catalog && Runnable(LoadedFor(env, s.runs[runId]).data, s.runs[runId])
    ensures var (after, reply) := Execute(env, s, runId, req);
            var r, l := s.runs[runId], LoadedFor(env, s.runs[runId]);
            && reply.Answered? && reply.result.commandId == req.commandId
            && after.results == s.results[req.commandId := Stored(runId, Commanding(req), reply.result)]
            && (reply.result.accepted <==> PassesGuards(r.run, req) && Acceptable(l.data, env.def, r, req))
            && (!reply.result.accepted ==>
                  && (if PassesGuards(r.run, req) then HandlerRefuses(l.data, r, req, reply.result.reason)
                      else GuardRefuses(r.run, req, reply.result.reason))
                  && (reply.result.reason != AssessmentNoLongerValid ==>
                        after.runs == s.runs && after.order == s.order && reply.result.newEvents == []))
  {
    hide WellFormed, RunInv, Runnable, StepOf, Acceptable, HandlerRefuses, GuardRefuses, PassesGuards, StoreInv;
    hide SnapshotOf, Close, NewRecord, Ready;
    Addressed(env, s, runId, req);
    var r, l := s.runs[runId], LoadedFor(env, s.runs[runId]);
    ReadyParts(env, s);
    ExecuteAnswers(env, s, runId, req);
    CommandAcceptedIff(l, env.def, r, req);
    if !StepOf(l, env.def, r, req).accepted { RefusedWhy(l, env.def, r, req); }
    assert s.runs[runId := r] == s.runs;
  }

  lemma ReadyParts(env: Environment, s: Tables)
    requires Ready(env, s)
    ensures EnvironmentOk(env) && StoreInv(env, s) && Serviceable(env, s)
  {
  }

  /** The answer of a fresh command is its step's, and reports the revisions, the status, the new entries and the
      run as it is now. */
  lemma ExecuteAnswers(env: Environment, s: Tables, runId: nat, req: Request)
    requires Addresses(env, s, runId, req) && EnvironmentOk(env) && Serviceable(env, s)
    ensures s.runs[runId].run.version in env.catalog && Runnable(LoadedFor(env, s.runs[runId]).data, s.runs[runId])
    ensures var (after, reply) := Execute(env, s, runId, req);
            var step := StepOf(LoadedFor(env, s.runs[runId]), env.def, s.runs[runId], req);
            && reply.Answered? && reply.result.accepted == step.accepted && reply.result.reason == step.reason
            && reply.result.commandId == req.commandId && reply.result.priorRevision == s.runs[runId].run.revision
            && after.results == s.results[req.commandId := Stored(runId, Commanding(req), reply.result)]
            && (!(step.accepted && req.kind == ResetRun) ==>
                  && after.runs == s.runs[runId := step.record] && after.order == s.order
                  && reply.result.currentRevision == step.record.run.revision
                  && reply.result.status == step.record.run.status
                  && reply.result.newEvents == Named(s.runs[runId].run.id, step.newEvents)
                  && reply.result.newAssessments == step.newAssessments
                  && reply.result.snapshot.run == step.record.run && reply.result.snapshot.events == step.record.events)
  {
    hide WellFormed, StepOf, Close, NewRecord, Ready, StoreInv, Runnable, GateTopology, AllowedActions;
    StepReasons(env, s, runId, req);
  }

  lemma StepReasons(env: Environment, s: Tables, runId: nat, req: Request)
    requires runId in s.runs && Serviceable(env, s) && WellShaped(req)
    ensures var step := StepOf(LoadedFor(env, s.runs[runId]), env.def, s.runs[runId], req);
            req.kind == ResetRun && step.accepted ==> step.reason == RunWasReset
  {
    hide Handle, Close, Runnable;
  }

  // ---------------------------------------------------------------- a fresh run

  /** Entries one to four of a run, at its initial time and revision 0. */
  function InitialEvents(time: int, command: nat, actor: string): seq<Event> {
    [Event(1, time, 0, EventSpec(ScenarioInitialised, None, None, None), command, actor),
     Event(2, time, 0, EventSpec(ConfigurationSelected, None, None, None), command, actor),
     Event(3, time, 0, EventSpec(TopologyRecalculated, None, None, None), command, actor),
     Event(4, time, 0, EventSpec(OutageUpdated, None, None, None), command, actor)]
  }

  /** A run before its fault: every device is observed in its normal state and every source as it normally is,
      one snapshot pair is stored, and nothing has happened. */
  ghost predicate FreshRun(l: Loaded, r: RunRecord, id: nat, mode: Mode, fault: Id, time: int, buildId: string,
      actor: string)
  {
    var c := l.data;
    && r.run == RunContext(id, mode, l.configurationId, l.version, fault, time, time, 0, Normal, N0, buildId,
                           Initialised,
                           false, r.run.sources)
    && r.run.sources.Keys == SourceIds(c)
    && (forall x | x in c.sources :: x.id in r.run.sources && r.run.sources[x.id] == x.normalAvailability)
    && r.telemetry.Keys == DeviceIds(c)
    && (forall d | d in c.devices :: d.id in r.telemetry && r.telemetry[d.id] == Point(d.normalState, Good, time, 0))
    && r.alarms == [] && r.assessments == [] && r.invalidations == []
    && r.topologies == map[0 := TopologyAt(c, r.telemetry, r.run.sources, None, time)]
    && r.outages.Keys == {0} && r.outages[0].deEnergised == SectionIds(c) - LiveOf(c, r)
    && r.outages[0].affected == CustomersOf(c.zones, r.outages[0].deEnergised) && r.outages[0].restoredDelta == 0
    && r.events == InitialEvents(time, id, actor)
  }

  lemma SourcesAreUnique(c: Network, x: Source, y: Source)
    requires Validated(c) && x in c.sources && y in c.sources && x.id == y.id
    ensures x == y
  {
    assert Satisfies(c, UniqueEntities);
    var i :| 0 <= i < |c.sources| && c.sources[i] == x;
    var j :| 0 <= j < |c.sources| && c.sources[j] == y;
    EntityIdAt(c, i); EntityIdAt(c, j);
  }

  lemma NormalValues(c: Network, time: int)
    requires WellFormed(c)
    ensures NormalPoints(c, time).Keys == DeviceIds(c) && NormalSources(c).Keys == SourceIds(c)
    ensures forall d | d in c.devices ::
              d.id in NormalPoints(c, time) && NormalPoints(c, time)[d.id] == Point(d.normalState, Good, time, 0)
    ensures forall x | x in c.sources :: x.id in NormalSources(c) && NormalSources(c)[x.id] == x.normalAvailability
  {
    hide WellFormed, Validated, DeviceById, SourceById;
    WellFormedFacts(c);
    forall d | d in c.devices ensures d.id in DeviceIds(c) && DeviceById(c, d.id) == Some(d) {
      assert d.id in DeviceIds(c);
      DevicesAreUnique(c, d, DeviceById(c, d.id).value);
    }
    forall x | x in c.sources ensures x.id in SourceIds(c) && SourceById(c, x.id) == Some(x) {
      assert x.id in SourceIds(c);
      SourcesAreUnique(c, x, SourceById(c, x.id).value);
    }
  }

  lemma NewIsFresh(l: Loaded, id: nat, mode: Mode, fault: Id, time: int, buildId: string, actor: string)
    requires WellFormed(l.data)
    ensures FreshRun(l, NewRecord(l, id, mode, fault, time, buildId, actor), id, mode, fault, time, buildId, actor)
  {
    hide WellFormed, TopologyAt, LiveNow, NormalPoints, NormalSources, DeviceIds, SourceIds, SectionIds, SortedZones;
    hide ZonesIn, Customers, DeEnergised, CustomersOf;
    var c := l.data;
    var r := NewRecord(l, id, mode, fault, time, buildId, actor);
    NormalValues(c, time);
    NewShape(l, id, mode, fault, time, buildId, actor);
    OutageNow(c, NormalPoints(c, time), NormalSources(c), None, time, None);
    WellFormedZones(c);
    OutageMeans(c, TopologyAt(c, NormalPoints(c, time), NormalSources(c), None, time), None, {});
    NewEvents(r.(events := []), id, actor);
    assert r.events == Record(r.(events := []), id, actor, INITIAL_SPECS).events;
  }

  lemma NewEvents(r: RunRecord, id: nat, actor: string)
    requires r.events == [] && r.run.revision == 0
    ensures Record(r, id, actor, INITIAL_SPECS).events == InitialEvents(r.run.time, id, actor)
  {
    var events := Record(r, id, actor, INITIAL_SPECS).events;
    assert MaxSequence([]) == 0 && |INITIAL_SPECS| == 4;
    assert events == [] + EventsFrom(r.run, 1, id, actor, INITIAL_SPECS);
    assert |events| == 4 && events == [events[0], events[1], events[2], events[3]];
  }

  // ---------------------------------------------------------------- starting runs

  /** A run is inserted, as the newest, and the answer that reports it is stored under its command. */
  ghost predicate Starts(s: Tables, after: Tables, reply: Reply, id: nat, owner: nat, content: Content, reason: Reason,
      prior: nat, earlier: seq<(nat, int)>)
  {
    && id in after.runs && after.runs == s.runs[id := after.runs[id]] && after.order == s.order + [id]
    && reply.Answered? && after.results == s.results[id := Stored(owner, content, reply.result)]
    && reply.result.commandId == id && reply.result.accepted && reply.result.reason == reason
    && reply.result.priorRevision == prior && reply.result.currentRevision == 0 && reply.result.status == Initialised
    && reply.result.newEvents == earlier + [(id, 1), (id, 2), (id, 3), (id, 4)] && reply.result.newAssessments == []
    && reply.result.snapshot.run == after.runs[id].run && reply.result.snapshot.events == after.runs[id].events
  }

  lemma StartInserts(env: Environment, s: Tables, l: Loaded, r: RunRecord, owner: nat, content: Content, reason: Reason,
      prior: nat, earlier: seq<(nat, int)>)
    requires Runnable(l.data, r) && r.run.status == Initialised
    ensures var (after, reply) := Start(env, s, l, r, owner, content, reason, prior, earlier);
            Starts(s, after, reply, r.run.id, owner, content, reason, prior, earlier) && after.runs[r.run.id] == r
  {
    hide GateTopology, AllowedActions, Runnable, Classify;
    var id := r.run.id;
    assert Named(id, InitialSequences()) == [(id, 1), (id, 2), (id, 3), (id, 4)];
  }

  lemma StartStarts(env: Environment, s: Tables, l: Loaded, id: nat, mode: Mode, fault: Id, time: int, buildId: string,
      actor: string, owner: nat, content: Content, reason: Reason, prior: nat, earlier: seq<(nat, int)>)
    requires WellFormed(l.data) && fault in SectionIds(l.data)
    ensures var (after, reply) := Start(env, s, l, NewRun(l, id, mode, fault, time, buildId, actor), owner, content,
                                        reason,
                                        prior, earlier);
            Starts(s, after, reply, id, owner, content, reason, prior, earlier)
            && FreshRun(l, after.runs[id], id, mode, fault, time, buildId, actor)
  {
    hide WellFormed, NewRecord, SectionIds, Runnable, Start, FreshRun;
    NewIsFresh(l, id, mode, fault, time, buildId, actor);
    NewShape(l, id, mode, fault, time, buildId, actor);
    StartInserts(env, s, l, NewRun(l, id, mode, fault, time, buildId, actor), owner, content, reason, prior, earlier);
  }

  /** What a request asks for cannot be had: which of the reasons holds. */
  ghost predicate CannotHave(env: Environment, req: InitialiseRequest, e: Error) {
    if req.version !in env.catalog then e == UnknownVersion
    else
      var c := env.catalog[req.version].data;
      match e
      case FormalFaultIsFixed => req.mode == Formal && req.fault.Some? && req.fault != Some(env.def.fault)
      case FormalFaultAbsent =>
        req.mode == Formal && (req.fault == None || req.fault == Some(env.def.fault)) && env.def.fault !in SectionIds(c)
      case IsolationDeviceAbsent =>
        && req.mode == Formal && (req.fault == None || req.fault == Some(env.def.fault))
           && env.def.fault in SectionIds(c)
        && exists d :: d in env.def.sequence && d !in DeviceIds(c)
      case ExplorationVersionIsFixed => req.mode == Exploration && req.version != "1.1"
      case FaultSelectionRequired => req.mode == Exploration && req.version == "1.1" && req.fault == None
      case FaultNotASection =>
        req.mode == Exploration && req.version == "1.1" && req.fault.Some? && req.fault.value !in SectionIds(c)
      case _ => false
  }

  /** The fault section a request that can be had selects. */
  predicate Selects(env: Environment, req: InitialiseRequest, fault: Id) {
    if req.mode == Formal then fault == env.def.fault else req.fault == Some(fault)
  }

  lemma ChosenMeans(env: Environment, req: InitialiseRequest)
    requires EnvironmentOk(env)
    ensures forall e :: CannotHave(env, req, e) <==> Chosen(env, req) == Failure(e)
    ensures Chosen(env, req).Success? ==>
              Chosen(env, req).value.0 == env.catalog[req.version] && Selects(env, req, Chosen(env, req).value.1)
  {
    hide SectionIds, DeviceIds, WellFormed;
  }

  ghost predicate SomeOpen(runs: map<nat, RunRecord>) { exists id :: id in runs && runs[id].run.status != RunClosed }

  lemma SomeOpenMeans(env: Environment, s: Tables)
    requires StoreInv(env, s)
    ensures SomeOpen(s.runs) <==> MutableRun(s.order, s.runs).Some?
    ensures forall id | id in s.runs && s.runs[id].run.status != RunClosed :: MutableRun(s.order, s.runs) == Some(id)
  {
    hide RunsOk, NamesStored;
  }

  /** A fresh request for a first run: refused while one is open or when what it asks for cannot be had, and
      otherwise answered with a fresh run on the selected section. */
  lemma InitialiseAnswers(env: Environment, s: Tables, req: InitialiseRequest)
    requires Ready(env, s) && req.commandId !in s.results
    ensures var (after, reply) := Initialise(env, s, req);
            if SomeOpen(s.runs) then (after, reply) == (s, Refused(MutableRunExists))
            else if exists e :: CannotHave(env, req, e) then
              after == s && reply.Refused? && CannotHave(env, req, reply.error)
            else && req.version in env.catalog
                 && Starts(s, after, reply, req.commandId, req.commandId, Initialising(req), RunInitialised, 0, [])
                 && exists fault :: Selects(env, req, fault)
                      && FreshRun(env.catalog[req.version], after.runs[req.commandId], req.commandId, req.mode, fault,
                                  req.time, env.buildId, req.actor)
  {
    hide StoreInv, EnvironmentOk, Serviceable, CannotHave, Chosen, Start, NewRecord, WellFormed, FreshRun, Starts;
    hide Selects;
    SomeOpenMeans(env, s);
    ChosenMeans(env, req);
    if !SomeOpen(s.runs) && Chosen(env, req).Success? {
      var (l, fault) := Chosen(env, req).value;
      StartStarts(env, s, l, req.commandId, req.mode, fault, req.time, env.buildId, req.actor, req.commandId,
                  Initialising(req), RunInitialised, 0, []);
      assert Selects(env, req, fault);
    }
  }

  /** The open run is closed at its own time: its rows are what a reset leaves, and its log gains the entries
      of a reset under the request's command. */
  ghost predicate ClosedBy(p: RunRecord, closed: RunRecord, commandId: nat, actor: string, time: int,
      entries: seq<EventSpec>)
  {
    var req := Request(commandId, p.run.id, actor, p.run.revision, ResetRun, time, None, None, None, None);
    ResetDone(p, req, closed, entries) && Logs(p, closed, req, entries)
  }

  lemma CloseWrites(l: Loaded, p: RunRecord, commandId: nat, actor: string, time: int) returns (entries: seq<EventSpec>)
    requires RunInv(l, p) && Runnable(l.data, p)
    ensures ClosedBy(p, Close(p, commandId, actor, time), commandId, actor, time, entries)
    ensures Reports(p, Sequences(p, CloseSpecs(p)), entries)
  {
    hide RunInv, Runnable, Close, Logs, Reports, ResetDone, CloseSpecs, Sequences;
    var req := Request(commandId, p.run.id, actor, p.run.revision, ResetRun, time, None, None, None, None);
    entries := ResetWrites(l, p, req);
  }

  /** A fresh request for a replacement: refused without an open run, when what it asks for cannot be had, or when
      another build made the open run; otherwise the open run is closed and a fresh one started. */
  lemma ReplacementAnswers(env: Environment, s: Tables, req: InitialiseRequest)
    requires Ready(env, s) && req.commandId !in s.results
    ensures var (after, reply) := InitialiseReplacement(env, s, req);
            if !SomeOpen(s.runs) then (after, reply) == (s, Refused(NoMutableRun))
            else if exists e :: CannotHave(env, req, e) then
              after == s && reply.Refused? && CannotHave(env, req, reply.error)
            else exists id :: id in s.runs && s.runs[id].run.status != RunClosed
                              && Replaces(env, s, after, reply, id, req)
  {
    hide StoreInv, EnvironmentOk, Serviceable, CannotHave, Chosen, Start, NewRecord, WellFormed, Replaces, Close;
    hide CloseSpecs, Sequences;
    SomeOpenMeans(env, s);
    ChosenMeans(env, req);
    if SomeOpen(s.runs) && Chosen(env, req).Success? {
      var id := MutableRun(s.order, s.runs).value;
      ReplacementReplaces(env, s, id, req);
    }
  }

  /** The open run `id` gives way to a fresh run, unless another build made it. */
  ghost predicate Replaces(env: Environment, s: Tables, after: Tables, reply: Reply, id: nat, req: InitialiseRequest)
    requires id in s.runs
  {
    if s.runs[id].run.buildId != env.buildId then (after, reply) == (s, Refused(DifferentBuild))
    else exists closed, entries, numbers, fault ::
           ReplacedBy(env, s, after, reply, id, req, closed, entries, numbers, fault)
  }

  ghost predicate ReplacedBy(env: Environment, s: Tables, after: Tables, reply: Reply, id: nat, req: InitialiseRequest,
      closed: RunRecord, entries: seq<EventSpec>, numbers: seq<int>, fault: Id)
    requires id in s.runs
  {
    var p := s.runs[id];
    && p.run.id == id && req.version in env.catalog && Selects(env, req, fault)
    && ClosedBy(p, closed, req.commandId, req.actor, p.run.time, entries) && Reports(p, numbers, entries)
    && Starts(s.(runs := s.runs[id := closed]), after, reply, req.commandId, id, Initialising(req),
              LinkedRunInitialised, p.run.revision, Named(id, numbers))
    && req.commandId in after.runs
    && FreshRun(env.catalog[req.version], after.runs[req.commandId], req.commandId, req.mode, fault, req.time,
                env.buildId,
                req.actor)
  }

  lemma OpenRun(env: Environment, s: Tables, id: nat)
    requires Ready(env, s) && id in s.runs
    ensures s.runs[id].run.version in env.catalog && s.runs[id].run.id == id
    ensures RunInv(LoadedFor(env, s.runs[id]), s.runs[id]) && Runnable(LoadedFor(env, s.runs[id]).data, s.runs[id])
  {
    hide RunInv, RunOk, Serviceable, EnvironmentOk;
    assert RunOk(env, s.runs[id]);
    InvariantOf(env, s.runs[id]);
  }

  lemma ReplacementReplaces(env: Environment, s: Tables, id: nat, req: InitialiseRequest)
    requires Ready(env, s) && req.commandId !in s.results && EnvironmentOk(env)
    requires MutableRun(s.order, s.runs) == Some(id) && id in s.runs && Chosen(env, req).Success?
    ensures var (after, reply) := InitialiseReplacement(env, s, req); Replaces(env, s, after, reply, id, req)
  {
    hide StoreInv, EnvironmentOk, Serviceable, CannotHave, Chosen, Start, NewRecord, WellFormed, Close, FreshRun;
    hide Starts;
    hide CloseSpecs, Sequences, ClosedBy, Reports, Selects, RunInv, Runnable;
    OpenRun(env, s, id);
    ChosenMeans(env, req);
    var p := s.runs[id];
    if p.run.buildId == env.buildId {
      var (l, fault) := Chosen(env, req).value;
      var closed := Close(p, req.commandId, req.actor, p.run.time);
      var entries := CloseWrites(LoadedFor(env, p), p, req.commandId, req.actor, p.run.time);
      var numbers := Sequences(p, CloseSpecs(p));
      StartStarts(env, s.(runs := s.runs[id := closed]), l, req.commandId, req.mode, fault, req.time, env.buildId,
                  req.actor,
                  id, Initialising(req), LinkedRunInitialised, p.run.revision, Named(id, numbers));
      assert CloseRun(s, p, req.commandId, req.actor) == s.(runs := s.runs[id := closed]);
      var (after, reply) := InitialiseReplacement(env, s, req);
      StartedHere(s.(runs := s.runs[id := closed]), after, reply, req.commandId, id, Initialising(req),
                  LinkedRunInitialised, p.run.revision, Named(id, numbers));
      assert ReplacedBy(env, s, after, reply, id, req, closed, entries, numbers, fault);
    }
  }

  lemma StartedHere(s: Tables, after: Tables, reply: Reply, id: nat, owner: nat, content: Content, reason: Reason,
      prior: nat, earlier: seq<(nat, int)>)
    requires Starts(s, after, reply, id, owner, content, reason, prior, earlier)
    ensures id in after.runs
  {
  }

  /** The run is closed by the reset and a fresh one started from the same inputs. */
  ghost predicate ResetBy(env: Environment, s: Tables, after: Tables, reply: Reply, runId: nat, req: Request,
      closed: RunRecord, entries: seq<EventSpec>, numbers: seq<int>)
    requires runId in s.runs && s.runs[runId].run.version in env.catalog
  {
    var r := s.runs[runId];
    && ResetDone(r, req, closed, entries) && Logs(r, closed, req, entries) && Reports(r, numbers, entries)
    && Starts(s.(runs := s.runs[runId := closed]), after, reply, req.commandId, runId, Commanding(req), RunWasReset,
              r.run.revision, Named(runId, numbers))
    && req.commandId in after.runs
    && FreshRun(env.catalog[r.run.version], after.runs[req.commandId], req.commandId, r.run.mode, r.run.fault,
                r.run.initialTime, r.run.buildId, req.actor)
  }

  /** The next run replaces the open one when there is one. */
  lemma NextIs(env: Environment, s: Tables, req: InitialiseRequest)
    requires Ready(env, s)
    ensures InitialiseNext(env, s, req)
            == if SomeOpen(s.runs) then InitialiseReplacement(env, s, req) else Initialise(env, s, req)
  {
    hide StoreInv, EnvironmentOk, Serviceable, Initialise, InitialiseReplacement;
    SomeOpenMeans(env, s);
  }

  /** An accepted reset closes the run and starts a fresh one from the same inputs. */
  lemma ResetStarts(env: Environment, s: Tables, runId: nat, req: Request)
    requires Addresses(env, s, runId, req) && req.kind == ResetRun && PassesGuards(s.runs[runId].run, req)
    ensures s.runs[runId].run.version in env.catalog
    ensures var (after, reply) := Execute(env, s, runId, req);
            exists closed, entries, numbers :: ResetBy(env, s, after, reply, runId, req, closed, entries, numbers)
  {
    hide WellFormed, RunInv, Runnable, StoreInv, Start, NewRecord, Close, FreshRun, Starts, CloseSpecs, Sequences, Logs;
    hide Reports, ResetDone, Ready, SectionIds, Handle, FaultDone, AcknowledgementDone, IsolationDone, RestoreDone;
    hide AssessmentDone, ExecutionDone;
    Addressed(env, s, runId, req);
    ReadyParts(env, s);
    var r, l := s.runs[runId], LoadedFor(env, s.runs[runId]);
    FaultIsSection(l.data, r);
    var entries := ResetWrites(l, r, req);
    var step := HandleReset(r, req);
    assert StepOf(l, env.def, r, req) == step;
    StartStarts(env, s.(runs := s.runs[runId := step.record]), l, req.commandId, r.run.mode, r.run.fault,
                r.run.initialTime, r.run.buildId, req.actor, runId, Commanding(req), RunWasReset, r.run.revision,
                Named(runId, step.newEvents));
    var (after, reply) := Execute(env, s, runId, req);
    StartedHere(s.(runs := s.runs[runId := step.record]), after, reply, req.commandId, runId, Commanding(req),
                RunWasReset, r.run.revision, Named(runId, step.newEvents));
    assert ResetBy(env, s, after, reply, runId, req, step.record, entries, step.newEvents);
  }

  // ---------------------------------------------------------------- what a snapshot shows

  /** A snapshot of a run shows its rows, a topology and an outage that agree, evidence that is valid exactly when
      trustworthy at the run's time, and as actions the commands that would be accepted now. */
  lemma SnapshotAgrees(l: Loaded, def: Definition, r: RunRecord)
    requires WellFormed(l.data) && RunInv(l, r) && Runnable(l.data, r)
    ensures var p := SnapshotOf(l, def, r);
            && p.run == r.run && p.telemetry == r.telemetry && p.alarms == r.alarms && p.events == r.events
            && p.assessments == r.assessments && p.invalidations == r.invalidations
            && p.outage == r.outages[r.run.revision]
            && (forall s :: s in p.outage.deEnergised <==> s in p.topology.sections
                                                           && !p.topology.sections[s].energised)
            && p.topology == TopologyAt(l.data, r.telemetry, r.run.sources,
                                        if r.run.faultActive then Some(r.run.fault) else None, r.run.time)
            && p.validity.Keys == r.telemetry.Keys
            && (forall d | d in r.telemetry :: p.validity[d].overallValid <==> Trustworthy(r.telemetry[d], r.run.time))
            && forall req | WellShaped(req) && req.expectedRevision == r.run.revision && req.time == r.run.time ::
                 StepOf(l, def, r, req).accepted <==>
                   Offered(p.actions, req) && (req.kind == InitiateFault ==> BreakerNormallyClosed(l.data, r))
  {
    hide WellFormed, RunInv, TopologyAt, AllowedActions, StepOf, Offered, BreakerNormallyClosed, Runnable, Classify;
    hide SortedZones, ZonesIn, Customers;
    StoredOutageIsCurrent(l, r, r.run.time);
    forall d | d in r.telemetry ensures Classify(r.telemetry[d], r.run.time).overallValid <==>
                                        Trustworthy(r.telemetry[d], r.run.time) {
      TrustworthyMeans(r.telemetry[d], r.run.time);
    }
    forall req | WellShaped(req) && req.expectedRevision == r.run.revision && req.time == r.run.time
      ensures StepOf(l, def, r, req).accepted <==>
                Offered(AllowedActions(l, def, r), req)
                && (req.kind == InitiateFault ==> BreakerNormallyClosed(l.data, r))
    {
      AdvertisedIffAccepted(l, def, r, req);
    }
  }
}
