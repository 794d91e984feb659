/** Whole histories of requests, from any store and from the empty one. */
module Histories {
  import opened Ids
  import opened Configuration
  import opened Restoration
  import opened TopologyFacts
  import opened Derivation
  import opened Scenario
  import opened Handlers
  import opened RunInvariant
  import opened RunSteps
  import opened RunSafety
  import opened FaultSafety
  import opened Termination
  import opened Store
  import opened StoreFacts

  predicate HistoryOk(h: seq<Operation>) { forall k | 0 <= k < |h| :: OperationOk(h[k]) }

  ghost predicate Ready(env: Environment, s: Tables) { EnvironmentOk(env) && StoreInv(env, s) && Serviceable(env, s) }

  lemma ReadyAfter(env: Environment, s: Tables, op: Operation)
    requires Ready(env, s) && OperationOk(op)
    ensures Ready(env, Apply(env, s, op).0)
  {
    hide StoreInv, Apply, Serviceable;
    ApplyKeeps(env, s, op);
    RunsServiceable(env, Apply(env, s, op).0);
  }

  /** The store after a history. */
  ghost function Final(env: Environment, s: Tables, h: seq<Operation>): (f: Tables)
    requires Ready(env, s) && HistoryOk(h)
    ensures Ready(env, f)
    decreases |h|
  {
    if h == [] then s
    else
      ReadyAfter(env, s, h[0]);
      Final(env, Apply(env, s, h[0]).0, h[1..])
  }

  lemma {:induction false} FinalConcat(env: Environment, s: Tables, g: seq<Operation>, h: seq<Operation>)
    requires Ready(env, s) && HistoryOk(g) && HistoryOk(h)
    ensures Final(env, s, g + h) == Final(env, Final(env, s, g), h)
    decreases |g|
  {
    hide Apply, StoreInv, Serviceable, EnvironmentOk;
    if g == [] {
      assert g + h == h;
    } else {
      ReadyAfter(env, s, g[0]);
      assert (g + h)[0] == g[0] && (g + h)[1..] == g[1..] + h;
      FinalConcat(env, Apply(env, s, g[0]).0, g[1..], h);
    }
  }

  // ---------------------------------------------------------------- errors and stored results

  lemma StartShape(env: Environment, s: Tables, l: Loaded, r: RunRecord, owner: nat, content: Content,
                   reason: Reason, prior: nat, earlier: seq<(nat, int)>)
    requires Runnable(l.data, r)
    ensures var (after, reply) := Start(env, s, l, r, owner, content, reason, prior, earlier);
            && reply.Answered? && after.runs == s.runs[r.run.id := r]
            && after.results == s.results[r.run.id := Stored(owner, content, reply.result)]
  {
    hide SnapshotOf;
  }

  /** What starting a run can do: nothing, or insert one run and store one result. */
  lemma InitialiseShape(env: Environment, s: Tables, req: InitialiseRequest)
    requires EnvironmentOk(env)
    ensures var (after, reply) := Initialise(env, s, req);
            && (reply.Refused? || req.commandId in s.results ==> after == s)
            && (req.commandId in s.results ==> reply == Duplicate(s, req.commandId, Initialising(req)).value)
            && (reply.Answered? && req.commandId !in s.results ==>
                  && req.commandId in after.runs && after.runs == s.runs[req.commandId := after.runs[req.commandId]]
                  && exists owner :: after.results == s.results[req.commandId := Stored(owner, Initialising(req),
                     reply.result)])
  {
    hide Start, Chosen, Close, NewRecord;
    if Duplicate(s, req.commandId, Initialising(req)).None? && MutableRun(s.order, s.runs).None?
      && Chosen(env, req).Success? {
      var (l, fault) := Chosen(env, req).value;
      var r := NewRun(l, req.commandId, req.mode, fault, req.time, env.buildId, req.actor);
      StartShape(env, s, l, r, req.commandId, Initialising(req), RunInitialised, 0, []);
    }
  }

  lemma ReplacementShape(env: Environment, s: Tables, req: InitialiseRequest)
    requires EnvironmentOk(env)
    ensures var (after, reply) := InitialiseReplacement(env, s, req); var prior := MutableRun(s.order, s.runs);
            && (reply.Refused? || req.commandId in s.results ==> after == s)
            && (req.commandId in s.results ==> reply == Duplicate(s, req.commandId, Initialising(req)).value)
            && (reply.Answered? && req.commandId !in s.results ==>
                  && prior.Some? && req.commandId in after.runs
                  && after.runs == CloseRun(s, s.runs[prior.value], req.commandId,
                                            req.actor).runs[req.commandId := after.runs[req.commandId]]
                  && exists owner :: after.results == s.results[req.commandId := Stored(owner, Initialising(req),
                     reply.result)])
  {
    hide Start, Chosen, Close, NewRecord, CloseRun;
    var prior := MutableRun(s.order, s.runs);
    if Duplicate(s, req.commandId, Initialising(req)).None? && prior.Some? && Chosen(env, req).Success?
      && s.runs[prior.value].run.buildId == env.buildId {
      var (l, fault) := Chosen(env, req).value;
      var p := s.runs[prior.value];
      var r := NewRun(l, req.commandId, req.mode, fault, req.time, env.buildId, req.actor);
      CloseRunResults(s, p, req.commandId, req.actor);
      StartShape(env, CloseRun(s, p, req.commandId, req.actor), l, r, p.run.id, Initialising(req),
                 LinkedRunInitialised, p.run.revision,
                 Named(p.run.id, Sequences(p, CloseSpecs(p))));
    }
  }

  lemma ExecuteShape(env: Environment, s: Tables, runId: nat, req: Request)
    requires EnvironmentOk(env) && Serviceable(env, s) && WellShaped(req)
    ensures var (after, reply) := Execute(env, s, runId, req);
            && (reply.Refused? || req.commandId in s.results ==> after == s)
            && (req.runId == runId && req.commandId in s.results
                ==> reply == Duplicate(s, req.commandId, Commanding(req)).value)
            && (reply.Answered? ==> req.runId == runId)
            && (reply.Answered? && req.commandId !in s.results ==>
                  && runId in s.runs
                  && after.results == s.results[req.commandId := Stored(runId, Commanding(req), reply.result)]
                  && var step := StepOf(LoadedFor(env, s.runs[runId]), env.def, s.runs[runId], req);
                     && reply.result.accepted == step.accepted
                     && if step.accepted && req.kind == ResetRun
                        then req.commandId in after.runs && after.runs
                             == s.runs[runId := step.record][req.commandId := after.runs[req.commandId]]
                        else after.runs == s.runs[runId := step.record])
  {
    hide Start, NewRecord, StepOf, SnapshotOf, Runnable, WellFormed;
    if req.runId == runId && Duplicate(s, req.commandId, Commanding(req)).None? && runId in s.runs {
      var r := s.runs[runId];
      var l := LoadedFor(env, r);
      var step := StepOf(l, env.def, r, req);
      if step.accepted && req.kind == ResetRun {
        FaultIsSection(l.data, r);
        var clean := NewRun(l, req.commandId, r.run.mode, r.run.fault, r.run.initialTime, r.run.buildId, req.actor);
        StartShape(env, s.(runs := s.runs[runId := step.record]), l, clean, runId, Commanding(req), RunWasReset,
                   r.run.revision, Named(runId, step.newEvents));
        StartAccepts(env, s.(runs := s.runs[runId := step.record]), l, clean, runId, Commanding(req), RunWasReset,
                     r.run.revision, Named(runId, step.newEvents));
      }
    }
  }

  lemma StartAccepts(env: Environment, s: Tables, l: Loaded, r: RunRecord, owner: nat, content: Content,
                     reason: Reason, prior: nat, earlier: seq<(nat, int)>)
    requires Runnable(l.data, r)
    ensures var reply := Start(env, s, l, r, owner, content, reason, prior, earlier).1;
            reply.Answered? && reply.result.accepted
  {
    hide SnapshotOf;
  }

  /** A refused operation leaves every table as it was; an answered one stores its result for good. */
  lemma RefusedOrStored(env: Environment, s: Tables, op: Operation)
    requires Ready(env, s) && OperationOk(op)
    ensures var (after, reply) := Apply(env, s, op);
            match reply
            case Refused(_) => after == s
            case Answered(result) =>
              && CommandIdOf(op) in after.results && after.results[CommandIdOf(op)].result == result
              && (CommandIdOf(op) in s.results ==> after == s)
              && (forall k | k in s.results :: k in after.results && after.results[k] == s.results[k])
  {
    hide StoreInv, EnvironmentOk, Serviceable, Initialise, InitialiseReplacement, Execute, CloseRun, StepOf;
    var refused := Apply(env, s, op).1.Refused? ==> Apply(env, s, op).0 == s;
    match op
    case Begin(req) => InitialiseShape(env, s, req); assert refused;
    case Replace(req) => ReplacementShape(env, s, req); assert refused;
    case Continue(req) => InitialiseShape(env, s, req); ReplacementShape(env, s, req); assert refused;
    case Command(runId, req) => ExecuteShape(env, s, runId, req); assert refused;
  }

  function ContentOf(op: Operation): Content { if op.Command? then Commanding(op.command) else Initialising(op.init) }

  /** What is stored under a command identifier answers that command again. */
  lemma StoredAnswers(env: Environment, s: Tables, op: Operation)
    requires Ready(env, s) && OperationOk(op)
    ensures Apply(env, s, op).1.Answered? ==>
              && CommandIdOf(op) in Apply(env, s, op).0.results
              && Apply(env, s, op).0.results[CommandIdOf(op)].content == ContentOf(op)
              && (op.Command? ==> op.command.runId == op.runId)
    ensures CommandIdOf(op) in s.results && s.results[CommandIdOf(op)].content == ContentOf(op)
            && (op.Command? ==> op.command.runId == op.runId)
            ==> Apply(env, s, op) == (s, Answered(s.results[CommandIdOf(op)].result))
  {
    hide StoreInv, EnvironmentOk, Serviceable, Initialise, InitialiseReplacement, Execute, CloseRun, StepOf;
    match op
    case Begin(req) => InitialiseShape(env, s, req);
    case Replace(req) => ReplacementShape(env, s, req);
    case Continue(req) => InitialiseShape(env, s, req); ReplacementShape(env, s, req);
    case Command(runId, req) => ExecuteShape(env, s, runId, req);
  }

  lemma {:induction false} ResultsLast(env: Environment, s: Tables, h: seq<Operation>, k: nat)
    requires Ready(env, s) && HistoryOk(h) && k in s.results
    ensures k in Final(env, s, h).results && Final(env, s, h).results[k] == s.results[k]
    decreases |h|
  {
    hide Apply, StoreInv, Serviceable, EnvironmentOk;
    if h != [] {
      ReadyAfter(env, s, h[0]);
      RefusedOrStored(env, s, h[0]);
      ResultsLast(env, Apply(env, s, h[0]).0, h[1..], k);
    }
  }

  /** Replaying an answered operation at any later point returns the stored result and changes nothing. */
  lemma ReplayReturnsStored(env: Environment, s: Tables, op: Operation, h: seq<Operation>)
    requires Ready(env, s) && OperationOk(op) && HistoryOk(h) && Apply(env, s, op).1.Answered?
    ensures Ready(env, Apply(env, s, op).0)
    ensures var later := Final(env, Apply(env, s, op).0, h);
            Apply(env, later, op) == (later, Apply(env, s, op).1)
  {
    hide Apply, StoreInv, Serviceable, EnvironmentOk;
    ReadyAfter(env, s, op);
    RefusedOrStored(env, s, op);
    StoredAnswers(env, s, op);
    ResultsLast(env, Apply(env, s, op).0, h, CommandIdOf(op));
    StoredAnswers(env, Final(env, Apply(env, s, op).0, h), op);
  }

  /** A history without the operations whose command was already answered when they arrived. */
  ghost function WithoutReplays(env: Environment, s: Tables, h: seq<Operation>): (g: seq<Operation>)
    requires Ready(env, s) && HistoryOk(h)
    ensures HistoryOk(g)
    decreases |h|
  {
    if h == [] then []
    else
      ReadyAfter(env, s, h[0]);
      if CommandIdOf(h[0]) in s.results then WithoutReplays(env, s, h[1..])
      else [h[0]] + WithoutReplays(env, Apply(env, s, h[0]).0, h[1..])
  }

  /** A history with duplicates ends in the same store as the history without them. */
  lemma {:induction false} ReplaysDoNotMatter(env: Environment, s: Tables, h: seq<Operation>)
    requires Ready(env, s) && HistoryOk(h)
    ensures Final(env, s, h) == Final(env, s, WithoutReplays(env, s, h))
    decreases |h|
  {
    hide Apply, StoreInv, Serviceable, EnvironmentOk;
    if h != [] {
      ReadyAfter(env, s, h[0]);
      RefusedOrStored(env, s, h[0]);
      var after := Apply(env, s, h[0]).0;
      if CommandIdOf(h[0]) in s.results {
        assert after == s;
        ReplaysDoNotMatter(env, s, h[1..]);
      } else {
        ReplaysDoNotMatter(env, after, h[1..]);
        var g := WithoutReplays(env, after, h[1..]);
        assert ([h[0]] + g)[1..] == g;
      }
    }
  }

  /** In particular a second copy of an answered operation can be dropped wherever it stands. */
  lemma DuplicateCanBeDropped(env: Environment, s: Tables, op: Operation, g: seq<Operation>, h: seq<Operation>)
    requires Ready(env, s) && OperationOk(op) && HistoryOk(g) && HistoryOk(h) && Apply(env, s, op).1.Answered?
    ensures HistoryOk([op] + g + [op] + h) && HistoryOk([op] + g + h)
    ensures Final(env, s, [op] + g + [op] + h) == Final(env, s, [op] + g + h)
  {
    hide Apply, StoreInv, Serviceable, EnvironmentOk;
    FinalConcat(env, s, [op] + g, [op] + h);
    FinalConcat(env, s, [op] + g, h);
    assert ([op] + g) + ([op] + h) == [op] + g + [op] + h;
    assert ([op] + g)[1..] == g;
    ReplayReturnsStored(env, s, op, g);
    var later := Final(env, s, [op] + g);
    assert later == Final(env, Apply(env, s, op).0, g);
    assert ([op] + h)[1..] == h;
  }

  // ---------------------------------------------------------------- runs over a history

  lemma ForwardTransitive(r: RunRecord, s: RunRecord, t: RunRecord)
    requires Forward(r, s) && Forward(s, t)
    ensures Forward(r, t)
  {
  }

  /** One operation moves every stored run forward; it leaves a closed run and every run it is not
      addressed to alone, except that a replacement closes the open one. */
  lemma ApplyMovesForward(env: Environment, s: Tables, op: Operation, id: nat)
    requires Ready(env, s) && OperationOk(op) && id in s.runs
    ensures var after := Apply(env, s, op).0;
            && id in after.runs && Forward(s.runs[id], after.runs[id])
            && (!Mutable(s.runs[id]) ==> after.runs[id] == s.runs[id])
            && (op.Command? && op.runId != id ==> after.runs[id] == s.runs[id])
  {
    hide StoreInv, Serviceable, EnvironmentOk, Execute, Initialise, InitialiseReplacement, Forward, RunOk;
    RunsStand(env, s, id);
    ForwardReflexive(s.runs[id]);
    match op
    case Begin(req) => BeginLeaves(env, s, req, id);
    case Replace(req) => ReplacementCloses(env, s, req, id);
    case Continue(req) => BeginLeaves(env, s, req, id); ReplacementCloses(env, s, req, id);
    case Command(runId, req) => CommandMoves(env, s, runId, req, id);
  }

  lemma RunsStand(env: Environment, s: Tables, id: nat)
    requires StoreInv(env, s) && id in s.runs
    ensures s.runs[id].run.id == id && RunOk(env, s.runs[id]) && id in s.results
  {
    hide RunOk;
  }

  lemma BeginLeaves(env: Environment, s: Tables, req: InitialiseRequest, id: nat)
    requires EnvironmentOk(env) && StoreInv(env, s) && id in s.runs
    ensures id in Initialise(env, s, req).0.runs && Initialise(env, s, req).0.runs[id] == s.runs[id]
  {
    hide StoreInv, EnvironmentOk, Initialise, RunOk;
    RunsStand(env, s, id);
    InitialiseShape(env, s, req);
  }

  lemma ReplacementCloses(env: Environment, s: Tables, req: InitialiseRequest, id: nat)
    requires EnvironmentOk(env) && StoreInv(env, s) && id in s.runs
    ensures var after := InitialiseReplacement(env, s, req).0;
            && id in after.runs
            && (after.runs[id] == s.runs[id] || (Mutable(s.runs[id])
                                                 && after.runs[id] == Close(s.runs[id], req.commandId, req.actor,
                                                 s.runs[id].run.time)))
            && Forward(s.runs[id], after.runs[id])
  {
    hide StoreInv, EnvironmentOk, InitialiseReplacement, RunOk, Close, Forward;
    RunsStand(env, s, id);
    ReplacementShape(env, s, req);
    ForwardReflexive(s.runs[id]);
    var prior := MutableRun(s.order, s.runs);
    if prior.Some? {
      RunsStand(env, s, prior.value);
      ClosedIsOk(env, s.runs[prior.value], req.commandId, req.actor, s.runs[prior.value].run.time);
    }
  }

  lemma CommandMoves(env: Environment, s: Tables, runId: nat, req: Request, id: nat)
    requires EnvironmentOk(env) && StoreInv(env, s) && Serviceable(env, s) && WellShaped(req) && id in s.runs
    ensures var after := Execute(env, s, runId, req).0;
            && id in after.runs
            && (runId != id ==> after.runs[id] == s.runs[id])
            && (after.runs[id] == s.runs[id] || after.runs[id]
                == StepOf(LoadedFor(env, s.runs[id]), env.def, s.runs[id], req).record)
            && Forward(s.runs[id], after.runs[id]) && (!Mutable(s.runs[id]) ==> after.runs[id] == s.runs[id])
  {
    hide StoreInv, RunOk, StepOf, Forward, WellFormed, Runnable, Execute;
    RunsStand(env, s, id);
    ExecuteShape(env, s, runId, req);
    ForwardReflexive(s.runs[id]);
    if runId == id && req.commandId !in s.results {
      RunAt(env, s, id, req.commandId);
      SteppedIsOk(env, s.runs[id], req);
      StepStatus(LoadedFor(env, s.runs[id]), env.def, s.runs[id], req);
    }
  }

  /** Over any history every run only moves forward, and a closed run never changes again. */
  lemma {:induction false} RunsMoveForward(env: Environment, s: Tables, h: seq<Operation>, id: nat)
    requires Ready(env, s) && HistoryOk(h) && id in s.runs
    ensures var f := Final(env, s, h);
            id in f.runs && Forward(s.runs[id], f.runs[id]) && (!Mutable(s.runs[id]) ==> f.runs[id] == s.runs[id])
    decreases |h|
  {
    hide Apply, StoreInv, Serviceable, EnvironmentOk, Forward;
    ForwardReflexive(s.runs[id]);
    if h != [] {
      ReadyAfter(env, s, h[0]);
      ApplyMovesForward(env, s, h[0], id);
      var after := Apply(env, s, h[0]).0;
      RunsMoveForward(env, after, h[1..], id);
      ForwardTransitive(s.runs[id], after.runs[id], Final(env, after, h[1..]).runs[id]);
    }
  }

  // ---------------------------------------------------------------- bounded runs

  /** The operation is a first-time command that its run `id` accepts. */
  ghost predicate AcceptedOn(env: Environment, s: Tables, op: Operation, id: nat)
    requires Ready(env, s) && OperationOk(op)
  {
    && op.Command? && op.runId == id && CommandIdOf(op) !in s.results
    && Apply(env, s, op).1.Answered? && Apply(env, s, op).1.result.accepted
  }

  ghost function AcceptedCommands(env: Environment, s: Tables, h: seq<Operation>, id: nat): nat
    requires Ready(env, s) && HistoryOk(h)
    decreases |h|
  {
    if h == [] then 0
    else
      ReadyAfter(env, s, h[0]);
      (if AcceptedOn(env, s, h[0], id) then 1 else 0) + AcceptedCommands(env, Apply(env, s, h[0]).0, h[1..], id)
  }

  ghost function RemainingFor(env: Environment, s: Tables, id: nat): nat
    requires StoreInv(env, s) && id in s.runs
  {
    RunsServiceable(env, s);
    Remaining(LoadedFor(env, s.runs[id]).data, s.runs[id])
  }

  lemma ApplyDecreases(env: Environment, s: Tables, op: Operation, id: nat)
    requires Ready(env, s) && OperationOk(op) && id in s.runs
    ensures Ready(env, Apply(env, s, op).0) && id in Apply(env, s, op).0.runs
    ensures RemainingFor(env, Apply(env, s, op).0, id) + (if AcceptedOn(env, s, op, id) then 1 else 0)
            <= RemainingFor(env, s, id)
  {
    hide StoreInv, Serviceable, EnvironmentOk, Execute, Initialise, InitialiseReplacement, Forward, RunOk, Remaining;
    hide StepOf, Close, Runnable;
    ReadyAfter(env, s, op);
    ApplyMovesForward(env, s, op, id);
    assert VersionKept(s.runs[id], Apply(env, s, op).0.runs[id]) by
      { VersionForward(s.runs[id], Apply(env, s, op).0.runs[id]); }
    RunsServiceable(env, s);
    RunsServiceable(env, Apply(env, s, op).0);
    RunsStand(env, s, id);
    match op
    case Begin(req) => BeginLeaves(env, s, req, id);
    case Replace(req) => ReplacementCloses(env, s, req, id); ClosingDecreases(env, s, id, req.commandId, req.actor);
    case Continue(req) => BeginLeaves(env, s, req, id); ReplacementCloses(env, s, req, id);
      ClosingDecreases(env, s, id, req.commandId, req.actor);
    case Command(runId, req) =>
      RunnableAt(env, Apply(env, s, op).0, id);
      CommandDecreases(env, s, runId, req, id);
  }

  predicate VersionKept(r: RunRecord, s: RunRecord) { r.run.version == s.run.version }

  lemma VersionForward(r: RunRecord, s: RunRecord)
    requires Forward(r, s)
    ensures VersionKept(r, s)
  {
  }

  lemma RunnableAt(env: Environment, s: Tables, id: nat)
    requires Serviceable(env, s) && id in s.runs
    ensures s.runs[id].run.version in env.catalog && Runnable(LoadedFor(env, s.runs[id]).data, s.runs[id])
  {
    hide Runnable;
  }

  lemma ClosingDecreases(env: Environment, s: Tables, id: nat, commandId: nat, actor: string)
    requires StoreInv(env, s) && id in s.runs && Serviceable(env, s)
    ensures var c := LoadedFor(env, s.runs[id]).data;
            var closed := Close(s.runs[id], commandId, actor, s.runs[id].run.time);
            Mutable(s.runs[id]) ==> Runnable(c, closed) && Runnable(c, s.runs[id])
                                    && Remaining(c, closed) < Remaining(c, s.runs[id])
  {
    hide StoreInv, RunInv, Remaining, Close, FaultIsDead;
    if Mutable(s.runs[id]) {
      RunsStand(env, s, id);
      ClosedIsOk(env, s.runs[id], commandId, actor, s.runs[id].run.time);
      var l := LoadedFor(env, s.runs[id]);
      RunnableRun(l, s.runs[id]);
      CloseShape(s.runs[id], commandId, actor, s.runs[id].run.time);
      RunnableRun(l, Close(s.runs[id], commandId, actor, s.runs[id].run.time));
      ResetDecreases(l, s.runs[id], commandId, actor, s.runs[id].run.time);
    }
  }

  lemma CommandDecreases(env: Environment, s: Tables, runId: nat, req: Request, id: nat)
    requires EnvironmentOk(env) && StoreInv(env, s) && Serviceable(env, s) && WellShaped(req) && id in s.runs
    requires id in Execute(env, s, runId, req).0.runs
             && Execute(env, s, runId, req).0.runs[id].run.version == s.runs[id].run.version
    requires Runnable(LoadedFor(env, s.runs[id]).data, Execute(env, s, runId, req).0.runs[id])
    ensures var (after, reply) := Execute(env, s, runId, req); var c := LoadedFor(env, s.runs[id]).data;
            Remaining(c, after.runs[id])
            + (if runId == id && req.commandId !in s.results && reply.Answered? && reply.result.accepted then 1 else 0)
            <= Remaining(c, s.runs[id])
  {
    hide StoreInv, RunOk, Remaining, StepOf, WellFormed, Runnable, Execute;
    RunsStand(env, s, id);
    ExecuteShape(env, s, runId, req);
    RunnableAt(env, s, id);
    if runId == id && req.commandId !in s.results {
      RunAt(env, s, id, req.commandId);
      assert RunInv(LoadedFor(env, s.runs[id]), s.runs[id]) by { InvariantOf(env, s.runs[id]); }
      StepDecreases(LoadedFor(env, s.runs[id]), env.def, s.runs[id], req);
    }
  }

  lemma InvariantOf(env: Environment, r: RunRecord)
    requires RunOk(env, r)
    ensures r.run.version in env.catalog && RunInv(LoadedFor(env, r), r)
    ensures Runnable(LoadedFor(env, r).data, r) && FaultIsDead(LoadedFor(env, r).data, r)
  {
    hide FaultIsDead;
  }

  /** Over any history the commands a run accepts never outnumber what it could still accept. */
  lemma {:induction false} AcceptedAreBounded(env: Environment, s: Tables, h: seq<Operation>, id: nat)
    requires Ready(env, s) && HistoryOk(h) && id in s.runs
    ensures AcceptedCommands(env, s, h, id) <= RemainingFor(env, s, id)
    decreases |h|
  {
    hide Apply, RemainingFor, AcceptedOn, StoreInv, Serviceable, EnvironmentOk;
    if h != [] {
      ReadyAfter(env, s, h[0]);
      ApplyDecreases(env, s, h[0], id);
      assert Ready(env, Apply(env, s, h[0]).0);
      AcceptedAreBounded(env, Apply(env, s, h[0]).0, h[1..], id);
    }
  }

  /** A run seen before its fault accepts at most seven more commands and one for each closed boundary
      of its fault other than the affected breaker; a run seen at N1 at most six and one for each. */
  lemma RunsTerminate(env: Environment, s: Tables, h: seq<Operation>, id: nat)
    requires Ready(env, s) && HistoryOk(h) && id in s.runs
    ensures var r := s.runs[id];
            && r.run.version in env.catalog && Runnable(LoadedFor(env, r).data, r)
            && var c := LoadedFor(env, r).data;
               AcceptedCommands(env, s, h, id)
               <= (if r.run.network == N0 then 7 else 6)
                  + (if Order(r.run.network) <= 1 then |ClosedBoundaries(c, r.run.fault, r.telemetry,
                    BreakerId(c, r))| else 0)
  {
    hide RunOk, StoreInv, Serviceable, EnvironmentOk, RunInv, FaultIsDead, Remaining, ClosedBoundaries, Apply;
    RunsStand(env, s, id);
    InvariantOf(env, s.runs[id]);
    AcceptedAreBounded(env, s, h, id);
    RemainingAtStart(LoadedFor(env, s.runs[id]), s.runs[id]);
  }

  // ---------------------------------------------------------------- safety from the empty store

  lemma EmptyIsReady(env: Environment)
    requires EnvironmentOk(env)
    ensures Ready(env, Tables([], map[], map[]))
  {
    Empty(env);
  }

  /** After any history from the empty store at most one run is open, and in every run labelled N2 to
      N5 the fault section's boundaries are open and it has no source path at any time, unless FORMAL
      has reclosed a breaker that touches the fault. */
  lemma EveryRunIsSafe(env: Environment, h: seq<Operation>, id: nat, time: int)
    requires EnvironmentOk(env) && HistoryOk(h)
    ensures Ready(env, Tables([], map[], map[]))
    ensures var f := Final(env, Tables([], map[], map[]), h);
            && OneMutable(f.runs)
            && (id in f.runs ==>
                  var r := f.runs[id];
                  && r.run.version in env.catalog && RunInv(LoadedFor(env, r), r)
                  && var c := LoadedFor(env, r).data;
                     (Order(r.run.network) >= 2 && (r.run.network == N2 || RecloseIsSafe(c, r)) ==>
                       && (forall d | d in BoundarySet(c, r.run.fault) ::
                             d in r.telemetry && r.telemetry[d].value == Open)
                       && r.run.fault in GateTopology(c, r, time).sections
                       && GateTopology(c, r, time).sections[r.run.fault].paths == []))
  {
    hide RunOk, WellFormed, RunInv, FaultIsDead, TopologyAt, BoundarySet, Serviceable, NamesStored, Listed;
    hide RecloseIsSafe;
    EmptyIsReady(env);
    var f := Final(env, Tables([], map[], map[]), h);
    if id in f.runs {
      RunsStand(env, f, id);
      var r := f.runs[id];
      InvariantOf(env, r);
      var l := LoadedFor(env, r);
      if Order(r.run.network) >= 2 && (r.run.network == N2 || RecloseIsSafe(l.data, r)) {
        FaultSectionHasNoPath(l, r, time);
      }
    }
  }

  /** After any history from the empty store every run's events are numbered from one without gaps, in
      order of time and revision, and none lies ahead of its run. */
  lemma EveryLogIsInOrder(env: Environment, h: seq<Operation>, id: nat, j: nat, k: nat)
    requires EnvironmentOk(env) && HistoryOk(h)
    ensures Ready(env, Tables([], map[], map[]))
    ensures var f := Final(env, Tables([], map[], map[]), h);
            id in f.runs && j <= k < |f.runs[id].events| ==>
              var r := f.runs[id];
              && r.run.id == id
              && r.events[k].sequence == k + 1
              && r.events[j].time <= r.events[k].time <= r.run.time
              && r.events[j].revision <= r.events[k].revision <= r.run.revision
  {
    hide RunOk, WellFormed, RunInv, Serviceable, NamesStored;
    EmptyIsReady(env);
    var f := Final(env, Tables([], map[], map[]), h);
    if id in f.runs {
      RunsStand(env, f, id);
      InvariantOf(env, f.runs[id]);
      RunInvParts(LoadedFor(env, f.runs[id]), f.runs[id]);
    }
  }

  // ---------------------------------------------------------------- one request after another

  const EMPTY := Tables([], map[], map[])

  lemma StepVersion(env: Environment, s: Tables, runId: nat, req: Request)
    requires Ready(env, s) && runId in s.runs && WellShaped(req) && req.commandId !in s.results
    ensures s.runs[runId].run.version in env.catalog && Runnable(LoadedFor(env, s.runs[runId]).data, s.runs[runId])
    ensures StepOf(LoadedFor(env, s.runs[runId]), env.def, s.runs[runId], req).record.run.version
            == s.runs[runId].run.version
  {
    hide StoreInv, Serviceable, RunInv, WellFormed, StepOf, FaultIsDead, RunOk, EnvironmentOk;
    RunAt(env, s, runId, req.commandId);
    assert EnvironmentOk(env);
    InvariantOf(env, s.runs[runId]);
    SteppedIsOk(env, s.runs[runId], req);
  }

  /** A fresh command other than a reset replaces its run's rows by the step's and answers with the
      step's verdict. */
  lemma CommandWrites(env: Environment, s: Tables, runId: nat, req: Request)
    requires Ready(env, s) && WellShaped(req) && req.runId == runId && runId in s.runs
    requires req.commandId !in s.results && req.kind != ResetRun
    ensures s.runs[runId].run.version in env.catalog && Runnable(LoadedFor(env, s.runs[runId]).data, s.runs[runId])
    ensures var step := StepOf(LoadedFor(env, s.runs[runId]), env.def, s.runs[runId], req);
            var (after, reply) := Execute(env, s, runId, req);
            && reply.Answered? && reply.result.accepted == step.accepted && reply.result.reason == step.reason
            && after.runs == s.runs[runId := step.record]
            && after.results.Keys == s.results.Keys + {req.commandId}
            && step.record.run.version == s.runs[runId].run.version
  {
    hide StoreInv, StepOf, SnapshotOf, WellFormed, Runnable;
    StepVersion(env, s, runId, req);
  }

  lemma FinalNext(env: Environment, s: Tables, h: seq<Operation>, op: Operation)
    requires Ready(env, s) && HistoryOk(h) && OperationOk(op)
    ensures HistoryOk(h + [op]) && Final(env, s, h + [op]) == Apply(env, Final(env, s, h), op).0
  {
    hide Apply, StoreInv, Serviceable, EnvironmentOk;
    FinalConcat(env, s, h, [op]);
    assert [op][1..] == [];
  }


  /** The store after the very first request has started a run. */
  lemma FirstRun(env: Environment, req: InitialiseRequest)
    requires EnvironmentOk(env) && Chosen(env, req).Success?
    ensures Ready(env, EMPTY) && HistoryOk([Begin(req)])
    ensures var f := Final(env, EMPTY, [Begin(req)]); var (l, fault) := Chosen(env, req).value;
            && f.runs == map[req.commandId := NewRecord(l, req.commandId, req.mode, fault, req.time, env.buildId,
                                                        req.actor)]
            && f.results.Keys == {req.commandId}
  {
    hide StoreInv, Serviceable, EnvironmentOk, Chosen, WellFormed, SnapshotOf, NewRecord, Runnable;
    EmptyIsReady(env);
    assert [Begin(req)][1..] == [];
    assert MutableRun([], map[]).None?;
  }

  /** One more command from the empty store: its run's rows become the step's. */
  lemma Sends(env: Environment, l: Loaded, h: seq<Operation>, id: nat, req: Request)
    requires Ready(env, EMPTY) && HistoryOk(h) && WellShaped(req) && req.runId == id && req.kind != ResetRun
    requires var s := Final(env, EMPTY, h);
             id in s.runs && req.commandId !in s.results && s.runs[id].run.version in env.catalog
               && l == LoadedFor(env, s.runs[id])
    ensures HistoryOk(h + [Command(id, req)])
    ensures var s, f := Final(env, EMPTY, h), Final(env, EMPTY, h + [Command(id, req)]);
            && Runnable(l.data, s.runs[id]) && id in f.runs && f.runs[id] == StepOf(l, env.def, s.runs[id], req).record
            && f.results.Keys == s.results.Keys + {req.commandId}
            && f.runs[id].run.version in env.catalog && l == LoadedFor(env, f.runs[id])
  {
    hide StepOf, StoreInv, Serviceable, EnvironmentOk, Execute, Runnable;
    FinalNext(env, EMPTY, h, Command(id, req));
    CommandWrites(env, Final(env, EMPTY, h), id, req);
  }
}
