/** The bounded regression driver: it follows the formal schedule to N5 and never runs out of turns. */
module Regression {
  import opened Ids
  import opened Configuration
  import opened Restoration
  import opened Scenario
  import opened Handlers
  import opened RunInvariant
  import opened RunSteps
  import opened FaultSafety
  import opened Advertised
  import opened Store
  import opened StoreFacts
  import opened Histories
  import opened UnitOfWork
  import opened CoordinatorFacts
  import opened Coordinator
  import opened Schedule
  import opened ScheduleSteps

  datatype Verdict = Finished | NotOffered(kind: CommandType) | Unscheduled(kind: CommandType) | NotAccepted | Exceeded

  const TURNS := 12

  function Kinds(actions: seq<Action>): set<CommandType> { set a | a in actions && a.available :: a.kind }

  function OfKind(actions: seq<Action>, kind: CommandType): seq<Action> {
    if actions == [] then []
    else (if actions[0].kind == kind && actions[0].available then [actions[0]] else []) + OfKind(actions[1..], kind)
  }

  /** Candidates go by target, then by alarm. */
  predicate ActionLeq(a: Action, b: Action) {
    if a.target.Some? && b.target.Some? then IdLeq(a.target.value, b.target.value)
    else if a.alarm.Some? && b.alarm.Some? then a.alarm.value <= b.alarm.value
    else true
  }

  lemma {:induction false} OfKindMembers(actions: seq<Action>, kind: CommandType)
    ensures forall a :: a in OfKind(actions, kind) <==> a in actions && a.available && a.kind == kind
  {
    if actions != [] {
      OfKindMembers(actions[1..], kind);
      assert forall a :: a in actions <==> a == actions[0] || a in actions[1..];
    }
  }

  /** The command the driver tries from a network state. */
  function Choice(network: NetworkState, available: set<CommandType>): CommandType {
    if network == N0 then InitiateFault
    else if AcknowledgeAlarm in available then AcknowledgeAlarm
    else
      match network
      case N1 => OperateIsolationDevice
      case N2 => RestoreNormalSource
      case N3 => AssessRestoration
      case _ => ExecuteRestoration
  }

  ghost predicate Station(env: Environment, s: Tables, runId: nat, k: nat) {
    && runId in s.runs && s.runs[runId].run.version in env.catalog
    && OnSchedule(LoadedFor(env, s.runs[runId]), s.runs[runId], k)
  }

  /** The one way the schedule cannot be finished: the assessment it reached is not PERMITTED. */
  ghost predicate NotPermitted(s: Tables, runId: nat) {
    && runId in s.runs && s.runs[runId].run.network == N4 && s.runs[runId].assessments != []
    && s.runs[runId].assessments[|s.runs[runId].assessments|-1].outcome != Permitted
  }

  lemma ChoiceIsStation(env: Environment, s: Tables, runId: nat, k: nat)
    requires Ready(env, s) && env.def == FORMAL_DEFINITION && Station(env, s, runId, k) && k <= 6
    ensures Runnable(LoadedFor(env, s.runs[runId]).data, s.runs[runId])
    ensures var l := LoadedFor(env, s.runs[runId]); var r := s.runs[runId];
            Choice(r.run.network, Kinds(AllowedActions(l, env.def, r))) == StationKind(k)
  {
    hide StoreInv, Serviceable, OnSchedule, AllowedActions, RunInv, WellFormed;
    var l, r := LoadedFor(env, s.runs[runId]), s.runs[runId];
    LoadedIsWellFormed(env, s, runId);
    assert r.run.network == StationNetwork(k) by { StationIs(l, r, k); }
    StationFacts(l, r, k);
    forall a | a in AllowedActions(l, env.def, r) && a.available ensures a.kind == AcknowledgeAlarm ==> k == 1 {
      OnlyStationIsOffered(l, r, k, a);
    }
    if k == 1 {
      var a := StationIsOffered(l, r, 1);
      assert a.kind in Kinds(AllowedActions(l, env.def, r));
    }
  }

  lemma StationIs(l: Loaded, r: RunRecord, k: nat)
    requires OnSchedule(l, r, k)
    ensures r.run.network == StationNetwork(k) && r.run.time == r.run.initialTime + StationMs(k)
            && r.run.status != RunClosed
    ensures RunInv(l, r) && Runnable(l.data, r)
    ensures k <= 7 && (k == 6 ==> r.assessments != [])
  {
    hide FaultIsDead, FormalNetwork, Grounding, Workflow, Cached, Accounted, Logged, AssessedOnce, Invalidated;
  }

  lemma LoadedIsWellFormed(env: Environment, s: Tables, runId: nat)
    requires Ready(env, s) && runId in s.runs && s.runs[runId].run.version in env.catalog
    ensures WellFormed(LoadedFor(env, s.runs[runId]).data) && s.runs[runId].run.id == runId
  {
    hide StoreInv, Serviceable, WellFormed;
    RunsStand(env, s, runId);
  }

  /** The request an available action of the station's kind makes is accepted at its scheduled time and
      lands on the next station. */
  lemma StationSteps(l: Loaded, r: RunRecord, k: nat, a: Action, commandId: nat, actor: string)
    requires WellFormed(l.data) && OnSchedule(l, r, k) && k <= 6 && FreshAssessment(r, commandId) && Runnable(l.data, r)
    requires a in AllowedActions(l, FORMAL_DEFINITION, r) && a.available && a.kind == StationKind(k)
    ensures OffsetMs(a.kind, a.target) == Some(StationMs(k + 1))
    ensures var req := RequestFor(a, r, commandId, actor, r.run.initialTime + StationMs(k + 1));
            && WellShaped(req) && StepOf(l, FORMAL_DEFINITION, r, req).accepted
            && OnSchedule(l, StepOf(l, FORMAL_DEFINITION, r, req).record, k + 1)
  {
    hide OnSchedule, AllowedActions, WellFormed, StepOf, OfferedBy, WellShaped, FreshAssessment, Runnable;
    var req := RequestFor(a, r, commandId, actor, r.run.initialTime + StationMs(k + 1));
    ActionIsOffered(l, FORMAL_DEFINITION, r, a, commandId, actor, req.time);
    OfferedIsScheduled(l, r, k, req);
    ScheduledIsAccepted(l, r, k, req);
    ScheduledLands(l, r, k, req);
  }

  /** Executing the request moves the store to the next station and touches no other run. */
  ghost predicate Advances(env: Environment, s: Tables, runId: nat, k: nat, req: Request)
    requires EnvironmentOk(env) && Serviceable(env, s) && WellShaped(req)
  {
    var (after, reply) := Execute(env, s, runId, req);
    && reply.Answered? && reply.result.accepted && Station(env, after, runId, k + 1)
    && after.results.Keys == s.results.Keys + {req.commandId}
    && forall id | id in s.runs && id != runId :: id in after.runs && after.runs[id] == s.runs[id]
  }

  /** The scheduled request for an available action of the station's kind advances the store. */
  lemma StationAdvances(env: Environment, s: Tables, runId: nat, k: nat, l: Loaded, r: RunRecord, a: Action,
      req: Request)
    requires Ready(env, s) && env.def == FORMAL_DEFINITION && k <= 6 && Runnable(l.data, r)
    requires runId in s.runs && r == s.runs[runId] && r.run.version in env.catalog && l == LoadedFor(env, r)
             && OnSchedule(l, r, k)
    requires a in AllowedActions(l, FORMAL_DEFINITION, r) && a.available && a.kind == StationKind(k)
    requires req.commandId !in s.results
    requires req == RequestFor(a, r, req.commandId, req.actor, r.run.initialTime + StationMs(k + 1))
    ensures OffsetMs(a.kind, a.target) == Some(StationMs(k + 1)) && WellShaped(req) && req.runId == runId
    ensures Advances(env, s, runId, k, req)
  {
    hide StoreInv, EnvironmentOk, Serviceable, OnSchedule, AllowedActions, RunInv, WellFormed, StepOf, WellShaped;
    hide Execute, FreshAssessment, Runnable, RunOk;
    LoadedIsWellFormed(env, s, runId);
    Addressed(env, s, runId, req);
    StationSteps(l, r, k, a, req.commandId, req.actor);
    NotReset(k);
    CommandWrites(env, s, runId, req);
  }

  lemma NotReset(k: nat)
    ensures StationKind(k) != ResetRun
  {
  }

  /** One turn: take the first available action of a kind at its scheduled time. */
  method ExecuteAvailable(coordinator: ScenarioCoordinator, runId: nat, actor: string, kind: CommandType,
      commandId: nat, ghost k: nat)
      returns (verdict: Option<Verdict>)
    requires coordinator.Valid() && coordinator.failures == {} && coordinator.env.def == FORMAL_DEFINITION
    requires Station(coordinator.env, coordinator.unit.Contents(), runId, k) && k <= 6 && kind == StationKind(k)
    requires commandId !in coordinator.unit.Contents().results
    modifies coordinator.unit
    ensures coordinator.Valid()
    ensures verdict.None? ==>
              && Station(coordinator.env, coordinator.unit.Contents(), runId, k + 1)
              && coordinator.unit.Contents().results.Keys == old(coordinator.unit.Contents()).results.Keys + {commandId}
    ensures verdict.Some? ==>
              && verdict.value == NotOffered(ExecuteRestoration) && k == 6
              && coordinator.unit.Contents() == old(coordinator.unit.Contents())
                 && NotPermitted(coordinator.unit.Contents(), runId)
    ensures forall id | id in old(coordinator.unit.Contents()).runs && id != runId ::
              id in coordinator.unit.Contents().runs && coordinator.unit.Contents().runs[id]
                == old(coordinator.unit.Contents()).runs[id]
  {
    hide ScenarioUnitOfWork.Contents, StoreInv, Serviceable, EnvironmentOk, OnSchedule, AllowedActions, ActionLeq;
    hide Execute, GateTopology, RunInv, WellFormed, Runnable, OffsetMs, WellShaped, Sort;
    ghost var s := coordinator.unit.Contents();
    var snapshot := coordinator.SnapshotOfRun(runId);
    var actions := snapshot.value.actions;
    var candidates := Sort(OfKind(actions, kind), ActionLeq);
    OfKindMembers(actions, kind);
    SortElements(OfKind(actions, kind), ActionLeq);
    LoadedIsWellFormed(coordinator.env, s, runId);
    if candidates == [] {
      NothingOffered(coordinator.env, s, runId, k);
      return Some(NotOffered(kind));
    }
    var action := candidates[0];
    assert action in candidates;
    var run := snapshot.value.run;
    StationAdvances(coordinator.env, s, runId, k, LoadedFor(coordinator.env, s.runs[runId]), s.runs[runId], action,
                    RequestFor(action, s.runs[runId], commandId, actor, run.initialTime + StationMs(k + 1)));
    var offset := OffsetMs(action.kind, action.target);
    if offset.None? { return Some(Unscheduled(kind)); }
    var req := Request(commandId, runId, actor, run.revision, kind, run.initialTime + offset.value,
                       action.target, action.state, action.alarm, action.assessment);
    assert req == RequestFor(action, s.runs[runId], commandId, actor, req.time);
    var reply := coordinator.Execute(runId, req);
    if !reply.Answered? || !reply.result.accepted { return Some(NotAccepted); }
    verdict := None;
  }

  /** When the station's command is not on offer, the run stands at N4 with an assessment that is not
      PERMITTED. */
  lemma NothingOffered(env: Environment, s: Tables, runId: nat, k: nat)
    requires Ready(env, s) && env.def == FORMAL_DEFINITION && Station(env, s, runId, k) && k <= 6
    requires Runnable(LoadedFor(env, s.runs[runId]).data, s.runs[runId])
    requires forall a | a in AllowedActions(LoadedFor(env, s.runs[runId]), env.def, s.runs[runId]) && a.available ::
               a.kind != StationKind(k)
    ensures k == 6 && NotPermitted(s, runId)
  {
    hide StoreInv, Serviceable, EnvironmentOk, OnSchedule, AllowedActions, RunInv, WellFormed, Runnable;
    var l, r := LoadedFor(env, s.runs[runId]), s.runs[runId];
    assert WellFormed(l.data) by { LoadedIsWellFormed(env, s, runId); }
    StationIs(l, r, k);
    if k != 6 || r.assessments[|r.assessments|-1].outcome == Permitted {
      var a := StationIsOffered(l, r, k);
    }
  }

  /** From any station of the formal schedule the driver reaches N5, unless the assessment at N4 is not
      PERMITTED, and then it says so; it never exceeds its turns. */
  method RunRegression(coordinator: ScenarioCoordinator, runId: nat, actor: string, commandIds: seq<nat>,
      ghost start: nat)
      returns (verdict: Verdict)
    requires coordinator.Valid() && coordinator.failures == {} && coordinator.env.def == FORMAL_DEFINITION
    requires Station(coordinator.env, coordinator.unit.Contents(), runId, start)
    requires |commandIds| == TURNS && Distinct(commandIds)
    requires forall j | 0 <= j < TURNS :: commandIds[j] !in coordinator.unit.Contents().results
    modifies coordinator.unit
    ensures coordinator.Valid()
    ensures verdict == Finished || verdict == NotOffered(ExecuteRestoration)
    ensures verdict == Finished ==> Station(coordinator.env, coordinator.unit.Contents(), runId, 7)
    ensures verdict == NotOffered(ExecuteRestoration) ==>
              Station(coordinator.env, coordinator.unit.Contents(), runId, 6)
                && NotPermitted(coordinator.unit.Contents(), runId)
    ensures forall id | id in old(coordinator.unit.Contents()).runs && id != runId ::
              id in coordinator.unit.Contents().runs && coordinator.unit.Contents().runs[id]
                == old(coordinator.unit.Contents()).runs[id]
  {
    hide ScenarioUnitOfWork.Contents, StoreInv, Serviceable, EnvironmentOk, OnSchedule, AllowedActions, GateTopology;
    hide RunInv, WellFormed, Runnable, Kinds, Choice;
    ghost var k := start;
    StationIs(LoadedFor(coordinator.env, coordinator.unit.Contents().runs[runId]),
              coordinator.unit.Contents().runs[runId], k);
    for i := 0 to TURNS
      invariant coordinator.Valid() && k == start + i <= 7
      invariant Station(coordinator.env, coordinator.unit.Contents(), runId, k)
      invariant forall j | i <= j < TURNS :: commandIds[j] !in coordinator.unit.Contents().results
      invariant forall id | id in old(coordinator.unit.Contents()).runs && id != runId ::
                  id in coordinator.unit.Contents().runs && coordinator.unit.Contents().runs[id]
                    == old(coordinator.unit.Contents()).runs[id]
    {
      var snapshot := coordinator.SnapshotOfRun(runId);
      var network := snapshot.value.run.network;
      StationIs(LoadedFor(coordinator.env, coordinator.unit.Contents().runs[runId]),
                coordinator.unit.Contents().runs[runId], k);
      if network == N5 { return Finished; }
      ChoiceIsStation(coordinator.env, coordinator.unit.Contents(), runId, k);
      var kind := Choice(network, Kinds(snapshot.value.actions));
      var stopped := ExecuteAvailable(coordinator, runId, actor, kind, commandIds[i], k);
      if stopped.Some? { return stopped.value; }
      k := k + 1;
    }
    verdict := Exceeded;
  }
}
