/** What the coordinator's methods rely on at each point where they touch the tables. */
module CoordinatorFacts {
  import opened Ids
  import opened Configuration
  import opened Topology
  import opened Telemetry
  import opened Outage
  import opened Restoration
  import opened Derivation
  import opened Scenario
  import opened Handlers
  import opened RunInvariant
  import opened RunSteps
  import opened Store
  import opened StoreFacts
  import opened Histories
  import opened UnitOfWork

  /** The topology calculation cannot fail on this run's rows. */
  ghost predicate Derivable(c: Network, points: map<Id, Point>, run: RunContext) {
    WellFormed(c) && points.Keys == DeviceIds(c) && run.sources.Keys == SourceIds(c) && run.fault in SectionIds(c)
  }

  ghost predicate RecordDerivable(c: Network, r: RunRecord) { Derivable(c, r.telemetry, r.run) && Runnable(c, r) }

  lemma DerivableInputs(c: Network, points: map<Id, Point>, run: RunContext)
    requires Derivable(c, points, run)
    ensures Complete(c, InputsAt(points, run.sources, ActiveFault(run), run.time))
    ensures SourceEdgesPresent(c, InputsAt(points, run.sources, ActiveFault(run), run.time))
  {
    hide WellFormed, Validated, SourceEdge, FreshnessAt;
    WellFormedFacts(c);
  }

  /** The run a fresh command addresses, with everything its handler may assume. */
  ghost predicate Serving(env: Environment, s: Tables, l: Loaded, id: nat, req: Request) {
    && Ready(env, s) && id in s.runs && s.runs[id].run.version in env.catalog && l == LoadedFor(env, s.runs[id])
    && s.runs[id].run.id == id && RunInv(l, s.runs[id]) && RecordDerivable(l.data, s.runs[id])
    && WellShaped(req) && req.commandId !in s.results && GuardReason(s.runs[id], req).None?
    && FreshAssessment(s.runs[id], req.commandId)
  }

  lemma RecordIsDerivable(l: Loaded, r: RunRecord)
    requires WellFormed(l.data) && RunInv(l, r)
    ensures RecordDerivable(l.data, r)
  {
    hide WellFormed, Cached, Accounted, Workflow, Logged, AssessedOnce, Invalidated, DeviceIds, SourceIds, SectionIds;
    RunInvParts(l, r);
  }

  lemma Readable(env: Environment, s: Tables, id: nat)
    requires Ready(env, s) && id in s.runs
    ensures s.runs[id].run.version in env.catalog && s.runs[id].run.id == id && RunOk(env, s.runs[id])
    ensures RunInv(LoadedFor(env, s.runs[id]), s.runs[id])
            && RecordDerivable(LoadedFor(env, s.runs[id]).data, s.runs[id])
  {
    hide StoreInv, Serviceable, RunOk, RunInv, WellFormed, RecordDerivable;
    RunsStand(env, s, id);
    InvariantOf(env, s.runs[id]);
    RecordIsDerivable(LoadedFor(env, s.runs[id]), s.runs[id]);
  }

  lemma Addressed(env: Environment, s: Tables, id: nat, req: Request)
    requires Ready(env, s) && id in s.runs && req.commandId !in s.results
    ensures s.runs[id].run.version in env.catalog && s.runs[id].run.id == id
    ensures var l := LoadedFor(env, s.runs[id]); RunInv(l, s.runs[id]) && RecordDerivable(l.data, s.runs[id])
    ensures FreshAssessment(s.runs[id], req.commandId)
  {
    hide StoreInv, Serviceable, RunOk, RunInv, WellFormed, RecordDerivable;
    RunAt(env, s, id, req.commandId);
    InvariantOf(env, s.runs[id]);
    RecordIsDerivable(LoadedFor(env, s.runs[id]), s.runs[id]);
  }

  lemma RecordedDerivable(c: Network, r: RunRecord, command: nat, actor: string, specs: seq<EventSpec>)
    requires RecordDerivable(c, r)
    ensures RecordDerivable(c, Record(r, command, actor, specs))
  {
    hide EventsFrom, WellFormed;
  }

  /** Switching one known device and moving to the next revision keeps the run derivable. */
  lemma AdvancedDerivable(c: Network, r: RunRecord, run: RunContext, d: Id, point: Point)
    requires RecordDerivable(c, r) && d in r.telemetry && run.sources == r.run.sources && run.fault == r.run.fault
    ensures RecordDerivable(c, Advance(c, r, run, r.telemetry[d := point]))
  {
    hide TopologyAt, OutageOf, WellFormed, AffectedFeeder, DeviceIds, SourceIds, SectionIds;
  }

  lemma RunDerivable(c: Network, r: RunRecord, s: RunRecord)
    requires RecordDerivable(c, r) && s.telemetry == r.telemetry && s.outages == r.outages
    requires s.run.sources == r.run.sources && s.run.fault == r.run.fault && s.run.revision == r.run.revision
    ensures RecordDerivable(c, s)
  {
    hide WellFormed;
  }

  lemma IsolatedDerivable(c: Network, r: RunRecord, d: Id, time: int)
    requires RecordDerivable(c, r) && d in r.telemetry
    ensures RecordDerivable(c, IsolatedRecord(c, r, d, time))
  {
    hide TopologyAt, OutageOf, WellFormed, AffectedFeeder, DeviceIds, SourceIds, SectionIds, IsolatedIn;
  }

  lemma IsolationFacts(l: Loaded, def: Definition, r: RunRecord, time: int, target: Option<Id>)
    requires WellFormed(l.data) && RunInv(l, r) && target.Some?
             && TargetAvailable(def, r.run, GateTopology(l.data, r, time), target)
    ensures r.run.network == N1 && target.value in r.telemetry
  {
    hide WellFormed, TargetAvailable, GateTopology, Cached, Accounted, Workflow, Logged, AssessedOnce, Invalidated;
    RunInvParts(l, r);
    TargetIsDevice(l.data, def, r, time, target);
  }

  lemma InvalidatedDerivable(c: Network, r: RunRecord, req: Request)
    requires RecordDerivable(c, r) && Executable(r)
    ensures RecordDerivable(c, InvalidatedRecord(r, req)) && InvalidatedRecord(r, req).run.revision == r.run.revision
  {
    hide WellFormed, EventsFrom;
  }

  lemma AssessedDerivable(l: Loaded, r: RunRecord, time: int, id: nat)
    requires RecordDerivable(l.data, r)
    ensures RecordDerivable(l.data, AssessedRecord(l, r, time, id)) && AssessedRecord(l, r, time, id).assessments != []
  {
    hide WellFormed, Assess, InputsFor;
  }

  lemma AssessNames(l: Loaded, a: AssessmentInputs)
    ensures Assess(l, a).id == a.id && Assess(l, a).sequence == a.sequence
  {
    hide CandidateOf, PermissivesOf, CalculationOf;
  }

  /** Normal telemetry put in place device by device. */
  function PointsOf(devices: seq<Device>, time: int): map<Id, Point> {
    if devices == [] then map[]
    else
      var d := devices[|devices|-1];
      PointsOf(devices[..|devices|-1], time)[d.id := Point(d.normalState, Good, time, 0)]
  }

  lemma {:induction false} PointsOfKeys(devices: seq<Device>, time: int, d: Id)
    ensures d in PointsOf(devices, time) <==> exists x :: x in devices && x.id == d
  {
    if devices != [] {
      var n := |devices| - 1;
      PointsOfKeys(devices[..n], time, d);
      assert devices == devices[..n] + [devices[n]];
    }
  }

  lemma {:induction false} PointOfDevice(devices: seq<Device>, time: int, x: Device)
    requires x in devices && forall y | y in devices && y.id == x.id :: y == x
    ensures x.id in PointsOf(devices, time) && PointsOf(devices, time)[x.id] == Point(x.normalState, Good, time, 0)
  {
    var n := |devices| - 1;
    if devices[n].id != x.id {
      assert devices == devices[..n] + [devices[n]];
      assert forall y | y in devices[..n] :: y in devices;
      PointOfDevice(devices[..n], time, x);
    }
  }

  lemma NormalFrom(c: Network, devices: seq<Device>, time: int)
    requires Validated(c) && (forall d :: d in devices <==> d in c.devices)
    ensures PointsOf(devices, time) == NormalPoints(c, time)
  {
    hide Validated, PointsOf;
    forall x, y | x in devices && y in devices && x.id == y.id ensures x == y { DevicesAreUnique(c, x, y); }
    forall d ensures d in PointsOf(devices, time) <==> d in DeviceIds(c) { PointsOfKeys(devices, time, d); }
    forall d | d in DeviceIds(c) ensures PointsOf(devices, time)[d] == NormalPoints(c, time)[d] {
      PointOfDevice(devices, time, DeviceById(c, d).value);
    }
  }

  lemma StartedIs(before: Tables, started: Tables, after: Tables, id: nat, bare: RunRecord)
    requires started == before.(order := before.order + [id], runs := before.runs[id := bare]) && bare.run.id == id
    requires id in after.runs && after.runs[id].run.id == id
             && after == started.(runs := started.runs[id := after.runs[id]])
    ensures after == InsertRun(before, after.runs[id])
  {
    assert after.runs == before.runs[id := after.runs[id]];
  }

  lemma NewIsDerivable(l: Loaded, id: nat, mode: Mode, fault: Id, time: int, buildId: string, actor: string)
    requires WellFormed(l.data) && fault in SectionIds(l.data)
    ensures RecordDerivable(l.data, NewRecord(l, id, mode, fault, time, buildId, actor))
    ensures NewRecord(l, id, mode, fault, time, buildId, actor).run.id == id
  {
    hide WellFormed, RunInv, NewRecord;
    NewKeeps(l, id, mode, fault, time, buildId, actor);
    RecordIsDerivable(l, NewRecord(l, id, mode, fault, time, buildId, actor));
    NewIsRunnable(l, id, mode, fault, time, buildId, actor);
  }

  /** Closing the open run leaves no run open. */
  lemma ClosingLeavesNone(env: Environment, s: Tables, id: nat, commandId: nat, actor: string, time: int)
    requires Ready(env, s) && id in s.runs && Mutable(s.runs[id])
    ensures NoneMutable(s.runs[id := Close(s.runs[id], commandId, actor, time)])
    ensures commandId !in s.results ==> commandId !in s.runs
  {
    hide Close, RunOk, EnvironmentOk, Serviceable;
    CloseShape(s.runs[id], commandId, actor, time);
  }

  lemma FaultedDerivable(c: Network, r: RunRecord, req: Request)
    requires RecordDerivable(c, r)
    ensures RecordDerivable(c, FaultedRecord(c, r, req))
  {
    hide TopologyAt, OutageOf, WellFormed, AffectedFeeder, DeviceIds, SourceIds, SectionIds;
  }

  // ---------------------------------------------------------------- keys stay unique

  lemma {:induction false} MaxIsMax(events: seq<Event>)
    ensures forall k | 0 <= k < |events| :: events[k].sequence <= MaxSequence(events)
  {
    if events != [] { MaxIsMax(events[..|events|-1]); }
  }

  lemma NextSequencesFree(r: RunRecord, run: RunContext, command: nat, actor: string, specs: seq<EventSpec>)
    ensures SequencesFree(r.events, EventsFrom(run, MaxSequence(r.events) + 1, command, actor, specs))
  {
    MaxIsMax(r.events);
  }

  lemma NextRevisionFree(l: Loaded, r: RunRecord)
    requires RunInv(l, r)
    ensures r.run.revision + 1 !in r.topologies && r.run.revision + 1 !in r.outages
    ensures r.run.network == N0 ==> r.alarms == []
  {
    hide Grounding, Accounted, Logged, AssessedOnce, Invalidated;
    RunInvParts(l, r);
  }

  lemma NotYetInvalidated(r: RunRecord, id: nat)
    requires id !in InvalidatedIds(r)
    ensures forall k | 0 <= k < |r.invalidations| :: r.invalidations[k].assessment != id
  {
    InvalidationsAreIds(r);
  }

  // ---------------------------------------------------------------- what a handler has done

  /** The command was handled as `step` says: its run's rows are the step's, every other run's rows are
      untouched, and the result is stored and answered. */
  ghost predicate Done(env: Environment, before: Tables, after: Tables, l: Loaded, id: nat, req: Request, step: Step,
      reply: Reply)
    requires id in before.runs
  {
    && Runnable(l.data, step.record)
    && reply == Answered(ResultOf(l, env.def, before.runs[id].run, step, req))
    && after == Keep(before.(runs := before.runs[id := step.record]), req.commandId, id, Commanding(req), reply.result)
  }

  lemma DoneByAccept(env: Environment, before: Tables, middle: Tables, after: Tables, l: Loaded, id: nat,
      req: Request, step: Step, reply: Reply)
    requires id in before.runs && Only(before, middle, id) && middle.runs[id] == step.record
             && Runnable(l.data, step.record)
    requires reply == Answered(ResultOf(l, env.def, before.runs[id].run, step, req))
    requires after == Keep(middle, req.commandId, id, Commanding(req), reply.result)
    ensures Done(env, before, after, l, id, req, step, reply)
  {
    hide SnapshotOf, Runnable;
    OnlyMeans(before, middle, id);
  }

  // ---------------------------------------------------------------- whole requests

  /** Handling the addressed run as specified is executing the command as specified. */
  lemma ExecuteIs(env: Environment, before: Tables, l: Loaded, r: RunRecord, req: Request, after: Tables, reply: Reply)
    requires EnvironmentOk(env) && Serviceable(env, before) && WellShaped(req)
    requires req.commandId !in before.results && req.runId in before.runs && r == before.runs[req.runId]
             && r.run.id == req.runId
    requires r.run.version in env.catalog && l == LoadedFor(env, r) && Runnable(l.data, r)
    requires WellFormed(l.data) && r.run.fault in SectionIds(l.data)
    requires
      match GuardReason(r, req)
      case Some(reason) => Done(env, before, after, l, req.runId, req, Handlers.Reject(r, reason), reply)
      case None =>
        if req.kind != ResetRun then Done(env, before, after, l, req.runId, req, Handle(l, env.def, r, req), reply)
        else
          (after, reply)
          == Start(env, before.(runs := before.runs[req.runId := Close(r, req.commandId, req.actor, req.time)]), l,
                   NewRun(l, req.commandId, r.run.mode, r.run.fault, r.run.initialTime, r.run.buildId, req.actor),
                   req.runId, Commanding(req), RunWasReset, r.run.revision,
                     Named(req.runId, Sequences(r, CloseSpecs(r))))
    ensures (after, reply) == Execute(env, before, req.runId, req)
  {
    hide EnvironmentOk, Serviceable, Handle, Close, Start, NewRun, ResultOf, WellFormed, SectionIds, CloseSpecs;
    hide Runnable;
  }

  /** The step of a command, case by case. */
  lemma StepCases(l: Loaded, def: Definition, r: RunRecord, req: Request)
    requires Runnable(l.data, r) && WellShaped(req)
    ensures var g := GuardReason(r, req);
            && (g.Some? ==> StepOf(l, def, r, req) == Handlers.Reject(r, g.value) && g.value != AssessmentNoLongerValid)
            && (g.None? && req.kind == ResetRun ==> StepOf(l, def, r, req).accepted
                                                    && StepOf(l, def, r, req).reason == RunWasReset)
            && (g.None? && req.kind != ResetRun ==> StepOf(l, def, r, req) == Handle(l, def, r, req))
  {
    hide Handle, Close, Runnable;
  }

  /** A fresh command for a stored run is answered with its step's verdict. */
  lemma AnswerIs(env: Environment, s: Tables, runId: nat, req: Request)
    requires Ready(env, s) && WellShaped(req) && req.runId == runId && runId in s.runs && req.commandId !in s.results
    ensures s.runs[runId].run.version in env.catalog && Runnable(LoadedFor(env, s.runs[runId]).data, s.runs[runId])
    ensures var step := StepOf(LoadedFor(env, s.runs[runId]), env.def, s.runs[runId], req);
            var answer := Execute(env, s, runId, req).1;
            answer.Answered? && answer.result.accepted == step.accepted && answer.result.reason == step.reason
  {
    hide StoreInv, StepOf, SnapshotOf, WellFormed, Runnable, Close, NewRecord;
    StepVersion(env, s, runId, req);
    StepCases(LoadedFor(env, s.runs[runId]), env.def, s.runs[runId], req);
  }

  lemma CommandKeepsReady(env: Environment, s: Tables, runId: nat, req: Request)
    requires Ready(env, s) && WellShaped(req)
    ensures Ready(env, s) && Serviceable(env, s) && EnvironmentOk(env) && Ready(env, Execute(env, s, runId, req).0)
    ensures Execute(env, s, runId, req).1.Refused? ==> Execute(env, s, runId, req).0 == s
  {
    hide StoreInv, Execute;
    ReadyAfter(env, s, Command(runId, req));
    RefusedOrStored(env, s, Command(runId, req));
  }

  lemma BeginKeepsReady(env: Environment, s: Tables, req: InitialiseRequest)
    requires Ready(env, s)
    ensures EnvironmentOk(env) && Ready(env, Initialise(env, s, req).0)
            && Ready(env, InitialiseReplacement(env, s, req).0)
    ensures Initialise(env, s, req).1.Refused? ==> Initialise(env, s, req).0 == s
    ensures InitialiseReplacement(env, s, req).1.Refused? ==> InitialiseReplacement(env, s, req).0 == s
  {
    hide StoreInv, Initialise, InitialiseReplacement;
    RefusedOrStored(env, s, Begin(req));
    RefusedOrStored(env, s, Replace(req));
    ReadyAfter(env, s, Begin(req));
    ReadyAfter(env, s, Replace(req));
  }

  lemma NobodyMutable(env: Environment, s: Tables, commandId: nat)
    requires Ready(env, s)
    ensures MutableRun(s.order, s.runs).None? ==> NoneMutable(s.runs)
    ensures commandId !in s.results ==> commandId !in s.runs
  {
    hide RunOk, EnvironmentOk, Serviceable, RunsOk;
    MutableIs(s, env);
  }
}
