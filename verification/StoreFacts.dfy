/** What holds of the store after any sequence of requests. */
module StoreFacts {
  import opened Ids
  import opened Configuration
  import opened Restoration
  import opened Outage
  import opened TopologyFacts
  import opened Derivation
  import opened Scenario
  import opened Handlers
  import opened RunInvariant
  import opened RunSteps
  import opened RunSafety
  import opened FaultSafety
  import opened Store

  // ---------------------------------------------------------------- the invariant

  ghost predicate RunOk(env: Environment, r: RunRecord) {
    && r.run.version in env.catalog
    && RunInv(LoadedFor(env, r), r)
    && FaultIsDead(LoadedFor(env, r).data, r)
  }

  ghost predicate RunsOk(env: Environment, runs: map<nat, RunRecord>) {
    forall id | id in runs :: runs[id].run.id == id && RunOk(env, runs[id])
  }

  /** At most one run is not closed. */
  ghost predicate OneMutable(runs: map<nat, RunRecord>) {
    forall i, j | i in runs && j in runs && Mutable(runs[i]) && Mutable(runs[j]) :: i == j
  }

  ghost predicate NoneMutable(runs: map<nat, RunRecord>) {
    forall i | i in runs :: !Mutable(runs[i])
  }

  ghost predicate Listed(order: seq<nat>, runs: map<nat, RunRecord>) {
    && (forall id :: id in order <==> id in runs)
    && (forall i, j | 0 <= i < j < |order| :: order[i] != order[j])
  }

  /** Every name in use is the name of a command whose result is stored. */
  ghost predicate NamesStored(runs: map<nat, RunRecord>, results: map<nat, Stored>) {
    && (forall id | id in runs :: id in results)
    && (forall id, k | id in runs && 0 <= k < |runs[id].assessments| :: runs[id].assessments[k].id in results)
  }

  ghost predicate StoreInv(env: Environment, s: Tables) {
    RunsOk(env, s.runs) && OneMutable(s.runs) && Listed(s.order, s.runs) && NamesStored(s.runs, s.results)
  }

  lemma Empty(env: Environment)
    ensures StoreInv(env, Tables([], map[], map[]))
  {
  }

  lemma RunsServiceable(env: Environment, s: Tables)
    requires StoreInv(env, s)
    ensures Serviceable(env, s)
  {
    hide Cached, Accounted, Workflow, Grounding, Logged, AssessedOnce, Invalidated;
    forall id | id in s.runs ensures s.runs[id].run.version in env.catalog
      && Runnable(LoadedFor(env, s.runs[id]).data, s.runs[id]) {
      assert RunOk(env, s.runs[id]);
    }
  }

  lemma MutableIs(s: Tables, env: Environment)
    requires StoreInv(env, s)
    ensures MutableRun(s.order, s.runs).None? ==> NoneMutable(s.runs)
    ensures MutableRun(s.order, s.runs).Some? ==>
              forall i | i in s.runs && Mutable(s.runs[i]) :: i == MutableRun(s.order, s.runs).value
  {
    hide RunsOk, NamesStored;
  }

  // ---------------------------------------------------------------- what one operation keeps

  lemma StartKeeps(env: Environment, s: Tables, l: Loaded, r: RunRecord, owner: nat, content: Content,
                   reason: Reason, prior: nat, earlier: seq<(nat, int)>)
    requires StoreInv(env, s) && NoneMutable(s.runs) && Runnable(l.data, r)
    requires RunOk(env, r) && r.run.id !in s.results && r.assessments == []
    ensures StoreInv(env, Start(env, s, l, r, owner, content, reason, prior, earlier).0)
  {
    hide RunOk, SnapshotOf, Runnable;
    var after := Start(env, s, l, r, owner, content, reason, prior, earlier).0;
    assert after.order == s.order + [r.run.id] && after.runs == s.runs[r.run.id := r];
    assert after.results.Keys == s.results.Keys + {r.run.id};
    assert r.run.id !in s.order;
  }

  lemma FreshIsOk(env: Environment, l: Loaded, id: nat, mode: Mode, fault: Id, time: int, buildId: string,
      actor: string)
    requires EnvironmentOk(env) && l.version in env.catalog && env.catalog[l.version] == l
    requires WellFormed(l.data) && fault in SectionIds(l.data)
    ensures RunOk(env, NewRun(l, id, mode, fault, time, buildId, actor))
    ensures NewRun(l, id, mode, fault, time, buildId, actor).run.id == id
            && NewRun(l, id, mode, fault, time, buildId, actor).assessments == []
    ensures NewRun(l, id, mode, fault, time, buildId, actor).run.network == N0
  {
    hide WellFormed, RunInv, TopologyAt, OutageOf, NormalPoints, EventsFrom;
    NewKeeps(l, id, mode, fault, time, buildId, actor);
  }

  /** Replacing one run by what it became under a command. */
  lemma ReplaceKeeps(env: Environment, s: Tables, r: RunRecord)
    requires StoreInv(env, s) && r.run.id in s.runs && RunOk(env, r)
    requires Mutable(r) ==> Mutable(s.runs[r.run.id])
    requires forall k | 0 <= k < |r.assessments| :: r.assessments[k].id in s.results
    ensures StoreInv(env, s.(runs := s.runs[r.run.id := r]))
    ensures !Mutable(r) && Mutable(s.runs[r.run.id]) ==> NoneMutable(s.runs[r.run.id := r])
  {
    hide RunOk;
    assert s.runs[r.run.id := r].Keys == s.runs.Keys;
  }

  lemma KeepKeeps(env: Environment, s: Tables, commandId: nat, runId: nat, content: Content, result: CommandResult)
    requires StoreInv(env, s)
    ensures StoreInv(env, Keep(s, commandId, runId, content, result))
  {
    hide RunOk, RunsOk, OneMutable;
  }

  lemma ClosedIsOk(env: Environment, p: RunRecord, commandId: nat, actor: string, time: int)
    requires RunOk(env, p) && Mutable(p) && time >= p.run.time
    ensures RunOk(env, Close(p, commandId, actor, time)) && !Mutable(Close(p, commandId, actor, time))
    ensures Close(p, commandId, actor, time).run.id == p.run.id
            && Close(p, commandId, actor, time).assessments == p.assessments
    ensures Forward(p, Close(p, commandId, actor, time))
  {
    hide RunInv, Close, BoundarySet;
    var l := LoadedFor(env, p);
    ResetKeeps(l, p, commandId, actor, time);
    CloseShape(p, commandId, actor, time);
    RunnableRun(l, p);
    RunnableRun(l, Close(p, commandId, actor, time));
    DeadFrame(l.data, p, Close(p, commandId, actor, time));
  }

  lemma SteppedIsOk(env: Environment, r: RunRecord, req: Request)
    requires EnvironmentOk(env) && RunOk(env, r) && WellShaped(req) && FreshAssessment(r, req.commandId)
    ensures Runnable(LoadedFor(env, r).data, r)
    ensures var s := StepOf(LoadedFor(env, r), env.def, r, req).record;
            RunOk(env, s) && Forward(r, s) && (Mutable(s) ==> Mutable(r))
  {
    hide RunInv, FaultIsDead, WellFormed, StepOf, FreshAssessment;
    var l := LoadedFor(env, r);
    RunnableRun(l, r);
    StepKeepsRun(l, env.def, r, req);
    StepKeepsDead(l, env.def, r, req);
    StepStatus(l, env.def, r, req);
  }

  /** A closed run stays exactly as it is. */
  lemma StepStatus(l: Loaded, def: Definition, r: RunRecord, req: Request)
    requires Runnable(l.data, r) && WellShaped(req)
    ensures !Mutable(r) ==> StepOf(l, def, r, req).record == r && !StepOf(l, def, r, req).accepted
    ensures StepOf(l, def, r, req).accepted && req.kind == ResetRun ==>
              StepOf(l, def, r, req).record == Close(r, req.commandId, req.actor, req.time) && Mutable(r)
                && req.time >= r.run.time
  {
    hide Handle, Close;
  }

  /** No assessment is in the second list but those of the first and one named after the command. */
  ghost predicate AddsOnly(r: RunRecord, s: RunRecord, commandId: nat) {
    forall k | 0 <= k < |s.assessments| ::
      (k < |r.assessments| && s.assessments[k] == r.assessments[k]) || s.assessments[k].id == commandId
  }

  lemma SwitchingAddsNothing(l: Loaded, def: Definition, r: RunRecord, req: Request)
    requires Runnable(l.data, r) && WellShaped(req)
    ensures HandleFault(l.data, r, req).record.assessments == r.assessments
    ensures HandleAcknowledge(r, req).record.assessments == r.assessments
    ensures req.kind == OperateIsolationDevice ==>
              HandleIsolation(l.data, def, r, req).record.assessments == r.assessments
    ensures HandleRestore(l.data, r, req).record.assessments == r.assessments
  {
    hide TopologyAt, OutageOf, EventsFrom, RestoreGate, TargetAvailable, IsolatedIn, AffectedFeeder, Runnable;
  }

  lemma RestorationAddsOne(l: Loaded, r: RunRecord, req: Request)
    requires Runnable(l.data, r)
    ensures AddsOnly(r, HandleAssess(l, r, req).record, req.commandId)
    ensures HandleExecute(l, r, req).record.assessments == r.assessments
  {
    hide TopologyAt, OutageOf, EventsFrom, Projection, BindingMatches, AssessGate, AssessedRecord, AffectedFeeder;
    AssessedNames(l, r, req.time, req.commandId);
  }

  /** A command adds no assessment but its own. */
  lemma StepAssessments(l: Loaded, def: Definition, r: RunRecord, req: Request)
    requires Runnable(l.data, r) && WellShaped(req)
    ensures AddsOnly(r, StepOf(l, def, r, req).record, req.commandId)
  {
    hide HandleFault, HandleAcknowledge, HandleIsolation, HandleRestore, HandleAssess, HandleExecute, Close, Runnable;
    SwitchingAddsNothing(l, def, r, req);
    RestorationAddsOne(l, r, req);
    CloseShape(r, req.commandId, req.actor, req.time);
  }

  lemma AssessedNames(l: Loaded, r: RunRecord, time: int, id: nat)
    ensures var s := AssessedRecord(l, r, time, id);
            |s.assessments| == |r.assessments| + 1 && r.assessments <= s.assessments
              && s.assessments[|r.assessments|].id == id
  {
    hide GateTopology, OutageOf, CandidateOf, PermissivesOf, CalculationOf;
  }

  lemma InitialiseKeeps(env: Environment, s: Tables, req: InitialiseRequest)
    requires EnvironmentOk(env) && StoreInv(env, s)
    ensures StoreInv(env, Initialise(env, s, req).0)
  {
    hide RunInv, WellFormed, StoreInv, RunOk, NewRun, Start, Chosen;
    MutableIs(s, env);
    if Duplicate(s, req.commandId, Initialising(req)).None? && MutableRun(s.order, s.runs).None?
      && Chosen(env, req).Success? {
      var (l, fault) := Chosen(env, req).value;
      FreshIsOk(env, l, req.commandId, req.mode, fault, req.time, env.buildId, req.actor);
      StartKeeps(env, s, l, NewRun(l, req.commandId, req.mode, fault, req.time, env.buildId, req.actor),
                 req.commandId, Initialising(req), RunInitialised, 0, []);
    }
  }

  lemma CloseRunKeeps(env: Environment, s: Tables, id: nat, commandId: nat, actor: string)
    requires StoreInv(env, s) && id in s.runs && Mutable(s.runs[id])
    ensures s.runs[id].run.id == id
    ensures StoreInv(env, CloseRun(s, s.runs[id], commandId, actor))
            && NoneMutable(CloseRun(s, s.runs[id], commandId, actor).runs)
  {
    hide RunOk, Close;
    var p := s.runs[id];
    assert p.run.id == id && RunOk(env, p);
    ClosedIsOk(env, p, commandId, actor, p.run.time);
    ReplaceKeeps(env, s, Close(p, commandId, actor, p.run.time));
  }

  lemma ReplacementKeeps(env: Environment, s: Tables, req: InitialiseRequest)
    requires EnvironmentOk(env) && StoreInv(env, s)
    ensures StoreInv(env, InitialiseReplacement(env, s, req).0)
  {
    hide RunInv, WellFormed, StoreInv, RunOk, NewRun, Start, Chosen, CloseRun;
    var prior := MutableRun(s.order, s.runs);
    if Duplicate(s, req.commandId, Initialising(req)).None? && prior.Some? && Chosen(env, req).Success?
      && s.runs[prior.value].run.buildId == env.buildId {
      var (l, fault) := Chosen(env, req).value;
      var p := s.runs[prior.value];
      CloseRunKeeps(env, s, prior.value, req.commandId, req.actor);
      FreshIsOk(env, l, req.commandId, req.mode, fault, req.time, env.buildId, req.actor);
      assert CloseRun(s, p, req.commandId, req.actor).results == s.results by
        { CloseRunResults(s, p, req.commandId, req.actor); }
      StartKeeps(env, CloseRun(s, p, req.commandId, req.actor), l,
                 NewRun(l, req.commandId, req.mode, fault, req.time, env.buildId, req.actor),
                 p.run.id, Initialising(req), LinkedRunInitialised, p.run.revision,
                   Named(p.run.id, Sequences(p, CloseSpecs(p))));
    }
  }

  lemma CloseRunResults(s: Tables, p: RunRecord, commandId: nat, actor: string)
    ensures CloseRun(s, p, commandId, actor).results == s.results && CloseRun(s, p, commandId, actor).order == s.order
  {
    hide Close;
  }

  lemma ExecuteKeepsStore(env: Environment, s: Tables, runId: nat, req: Request)
    requires EnvironmentOk(env) && StoreInv(env, s) && WellShaped(req) && Serviceable(env, s)
    ensures StoreInv(env, Execute(env, s, runId, req).0)
  {
    hide RunInv, WellFormed, StoreInv, RunOk, NewRun, Start, StepOf, Keep, ResultOf, Runnable;
    if req.runId == runId && Duplicate(s, req.commandId, Commanding(req)).None? && runId in s.runs {
      var r := s.runs[runId];
      var l := LoadedFor(env, r);
      RunAt(env, s, runId, req.commandId);
      SteppedIsOk(env, r, req);
      StepStatus(l, env.def, r, req);
      StepAssessments(l, env.def, r, req);
      var step := StepOf(l, env.def, r, req);
      if step.accepted && req.kind == ResetRun {
        ClosedIsOk(env, r, req.commandId, req.actor, req.time);
        AssessmentsNamed(env, s, runId);
        ReplaceKeeps(env, s, step.record);
        FaultIsSection(l.data, r);
        FreshIsOk(env, l, req.commandId, r.run.mode, r.run.fault, r.run.initialTime, r.run.buildId, req.actor);
        var clean := NewRun(l, req.commandId, r.run.mode, r.run.fault, r.run.initialTime, r.run.buildId, req.actor);
        StartKeeps(env, s.(runs := s.runs[runId := step.record]), l, clean, runId, Commanding(req), RunWasReset,
                   r.run.revision, Named(runId, step.newEvents));
      } else {
        StepRunnable(l, env.def, r, req);
        StoreStep(env, s, runId, step.record, req, ResultOf(l, env.def, r.run, step, req));
      }
    }
  }

  lemma RunAt(env: Environment, s: Tables, runId: nat, commandId: nat)
    requires EnvironmentOk(env) && StoreInv(env, s) && runId in s.runs && commandId !in s.results
    ensures s.runs[runId].run.id == runId && RunOk(env, s.runs[runId]) && FreshAssessment(s.runs[runId], commandId)
    ensures LoadedFor(env, s.runs[runId]).version == s.runs[runId].run.version
            && WellFormed(LoadedFor(env, s.runs[runId]).data)
  {
    hide RunOk, WellFormed;
    assert RunOk(env, s.runs[runId]);
    assert s.runs[runId].run.version in env.catalog by { VersionIn(env, s.runs[runId]); }
  }

  lemma VersionIn(env: Environment, r: RunRecord)
    requires RunOk(env, r)
    ensures r.run.version in env.catalog
  {
    hide RunInv, FaultIsDead;
  }

  lemma AssessmentsNamed(env: Environment, s: Tables, runId: nat)
    requires StoreInv(env, s) && runId in s.runs
    ensures forall k | 0 <= k < |s.runs[runId].assessments| :: s.runs[runId].assessments[k].id in s.results
  {
    hide RunOk;
  }

  /** Storing a run's new record together with the result of the command that produced it. */
  lemma StoreStep(env: Environment, s: Tables, runId: nat, r: RunRecord, req: Request, result: CommandResult)
    requires StoreInv(env, s) && runId in s.runs && r.run.id == runId && RunOk(env, r)
             && (Mutable(r) ==> Mutable(s.runs[runId]))
    requires forall k | 0 <= k < |r.assessments| ::
               (k < |s.runs[runId].assessments| && r.assessments[k] == s.runs[runId].assessments[k])
                 || r.assessments[k].id == req.commandId
    ensures StoreInv(env, Keep(s.(runs := s.runs[runId := r]), req.commandId, runId, Commanding(req), result))
  {
    hide RunOk;
    var kept := Keep(s, req.commandId, runId, Commanding(req), result);
    KeepKeeps(env, s, req.commandId, runId, Commanding(req), result);
    AssessmentsNamed(env, s, runId);
    ReplaceKeeps(env, kept, r);
    assert Keep(s.(runs := s.runs[runId := r]), req.commandId, runId, Commanding(req), result)
           == kept.(runs := kept.runs[runId := r]);
  }

  /** Every operation keeps the store invariant: at most one run is open, every run satisfies the run
      invariant, and its fault section is dead from N2 on. */
  lemma ApplyKeeps(env: Environment, s: Tables, op: Operation)
    requires EnvironmentOk(env) && StoreInv(env, s) && OperationOk(op)
    ensures Serviceable(env, s)
    ensures StoreInv(env, Apply(env, s, op).0)
  {
    hide StoreInv, Initialise, InitialiseReplacement, Execute, EnvironmentOk;
    RunsServiceable(env, s);
    match op
    case Begin(req) => InitialiseKeeps(env, s, req);
    case Replace(req) => ReplacementKeeps(env, s, req);
    case Continue(req) => InitialiseKeeps(env, s, req); ReplacementKeeps(env, s, req);
    case Command(runId, req) => ExecuteKeepsStore(env, s, runId, req);
  }
}
