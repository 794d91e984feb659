/** What the run invariant means for the stored history of one run. */
module RunFacts {
  import opened Ids
  import opened Configuration
  import opened Outage
  import opened Restoration
  import opened Derivation
  import opened Scenario
  import opened Handlers
  import opened RunInvariant
  import opened RunPreservation
  import opened RunSteps

  // ---------------------------------------------------------------- the stored outage

  /** There is one topology and one outage for each revision so far and no other, and the stored
      outage of the current revision is what current telemetry gives at any time. */
  lemma StoredOutageIsCurrent(l: Loaded, r: RunRecord, time: int)
    requires WellFormed(l.data) && RunInv(l, r)
    ensures forall k: nat :: (k in r.outages <==> k <= r.run.revision) && (k in r.topologies <==> k <= r.run.revision)
    ensures var stored := r.outages[r.run.revision]; var now := OutageOf(l.data, GateTopology(l.data, r, time), None);
            stored.deEnergised == now.deEnergised && stored.zones == now.zones && stored.affected == now.affected
  {
    hide WellFormed, TopologyAt, LiveNow, Grounding, Workflow, Accounted, Logged, AssessedOnce, Invalidated;
    hide SortedZones, ZonesIn, Customers, DeEnergised;
    RunInvParts(l, r);
    OutageNow(l.data, r.telemetry, r.run.sources, ActiveFault(r.run), time, None);
  }

  // ---------------------------------------------------------------- customer accounting

  /** Some revision's affected count is the highest seen, and what is affected now is that peak less
      everything restored since the run began. */
  lemma AffectedIsPeakLessRestored(l: Loaded, r: RunRecord)
    requires RunInv(l, r)
    ensures exists k :: k in r.outages
              && (forall j | j in r.outages :: r.outages[j].affected <= r.outages[k].affected)
              && r.outages[r.run.revision].affected == r.outages[k].affected - Deltas(r.outages, r.run.revision)
  {
    hide Deltas, Grounding, Workflow, Logged, AssessedOnce, Invalidated, Runnable;
    RunInvParts(l, r);
    var k :| k in r.outages && k <= r.run.revision
             && r.outages[k].affected == r.outages[r.run.revision].affected + Deltas(r.outages, r.run.revision);
  }

  lemma FaultRestoresNobody(l: Loaded, r: RunRecord, req: Request)
    requires WellFormed(l.data) && RunInv(l, r) && HandleFault(l.data, r, req).accepted
    ensures var s := HandleFault(l.data, r, req).record;
            s.run.revision == r.run.revision + 1 && s.run.revision in s.outages
              && s.outages[s.run.revision].restoredDelta == 0
  {
    hide WellFormed, TopologyAt, OutageOf, Cached, Accounted, LiveNow, EventsFrom, AssessedOnce, Invalidated, Grounding;
    hide Logged;
    RunInvParts(l, r);
    var c, b := l.data, BreakerId(l.data, r);
    var run := r.run.(time := req.time, revision := r.run.revision + 1, stage := PostFault,
                      network := N1, status := Active, faultActive := true);
    var points := Refresh(r.telemetry, b, Open, req.time, run.revision);
    OpeningShrinks(c, r.telemetry, r.run.sources, b, req.time, run.revision);
    OpeningAccounted(c, r, run, points);
  }

  lemma IsolationRestoresNobody(l: Loaded, r: RunRecord, d: Id, time: int)
    requires WellFormed(l.data) && RunInv(l, r) && r.run.network == N1
    ensures var s := IsolatedRecord(l.data, r, d, time);
            s.run.revision == r.run.revision + 1 && s.run.revision in s.outages
              && s.outages[s.run.revision].restoredDelta == 0
  {
    hide WellFormed, TopologyAt, OutageOf, Cached, Accounted, LiveNow, IsolatedIn, AssessedOnce, Invalidated, Grounding;
    hide Logged;
    RunInvParts(l, r);
    var s := IsolatedRecord(l.data, r, d, time);
    var points := Refresh(r.telemetry, d, Open, time, r.run.revision + 1);
    OpeningShrinks(l.data, r.telemetry, r.run.sources, d, time, s.run.revision);
    OpeningAccounted(l.data, r, s.run, points);
  }

  lemma RestoreAffectsNobody(l: Loaded, r: RunRecord, time: int)
    requires WellFormed(l.data) && RunInv(l, r)
    ensures var s := RestoredRecord(l.data, r, time);
            && s.run.revision == r.run.revision + 1 && s.run.revision in s.outages
            && s.outages[s.run.revision].affected + s.outages[s.run.revision].restoredDelta
               == r.outages[r.run.revision].affected
  {
    hide WellFormed, TopologyAt, OutageOf, Cached, Accounted, LiveNow, AssessedOnce, Invalidated, Grounding, Logged;
    RunInvParts(l, r);
    var s := RestoredRecord(l.data, r, time);
    var points := Refresh(r.telemetry, BreakerId(l.data, r), Closed, time, r.run.revision + 1);
    ClosingGrows(l.data, r.telemetry, r.run.sources, BreakerId(l.data, r), time, s.run.revision);
    ClosingAccounted(l.data, r, s.run, points);
  }

  lemma ExecuteAffectsNobody(l: Loaded, r: RunRecord, time: int)
    requires WellFormed(l.data) && RunInv(l, r) && Executable(r)
    ensures var s := ExecutedRecord(l.data, r, time);
            && s.run.revision == r.run.revision + 1 && s.run.revision in s.outages
            && s.outages[s.run.revision].affected + s.outages[s.run.revision].restoredDelta
               == r.outages[r.run.revision].affected
  {
    hide WellFormed, TopologyAt, OutageOf, Cached, Accounted, LiveNow, AssessedOnce, Invalidated, Grounding, Logged;
    RunInvParts(l, r);
    var s := ExecutedRecord(l.data, r, time);
    var points := Refresh(r.telemetry, CurrentTie(r), Closed, time, r.run.revision + 1);
    ClosingGrows(l.data, r.telemetry, r.run.sources, CurrentTie(r), time, s.run.revision);
    ClosingAccounted(l.data, r, s.run, points);
  }

  /** How a command of this kind accounts for customers: trip and isolation restore nobody; reclose and
      tie-close newly affect nobody; the other commands leave the outages alone. */
  ghost predicate AccountsFor(kind: CommandType, r: RunRecord, s: RunRecord) {
    && s.run.revision in s.outages && r.run.revision in r.outages
    && var o, p := s.outages[s.run.revision], r.outages[r.run.revision];
       match kind
       case InitiateFault => o.restoredDelta == 0 && s.run.revision == r.run.revision + 1
       case OperateIsolationDevice => o.restoredDelta == 0 && s.run.revision == r.run.revision + 1
       case RestoreNormalSource => o.affected + o.restoredDelta == p.affected && s.run.revision == r.run.revision + 1
       case ExecuteRestoration => o.affected + o.restoredDelta == p.affected && s.run.revision == r.run.revision + 1
       case _ => s.outages == r.outages && s.run.revision == r.run.revision
  }

  lemma IsolationAccounts(l: Loaded, def: Definition, r: RunRecord, req: Request)
    requires WellFormed(l.data) && RunInv(l, r) && WellShaped(req) && Runnable(l.data, r)
    requires req.kind == OperateIsolationDevice && HandleIsolation(l.data, def, r, req).accepted
    ensures AccountsFor(req.kind, r, HandleIsolation(l.data, def, r, req).record)
  {
    hide WellFormed, RunInv, EventsFrom, TargetAvailable, IsolatedRecord, Grounding, GateTopology, Runnable;
    assert r.run.revision in r.outages by { OutageStands(l, r); }
    GroundingOf(l, r);
    TargetIsDevice(l.data, def, r, req.time, req.target);
    IsolationRestoresNobody(l, r, req.target.value, req.time);
  }

  lemma RestoreAccounts(l: Loaded, r: RunRecord, req: Request)
    requires WellFormed(l.data) && RunInv(l, r) && Runnable(l.data, r)
    requires req.kind == RestoreNormalSource && HandleRestore(l.data, r, req).accepted
    ensures AccountsFor(req.kind, r, HandleRestore(l.data, r, req).record)
  {
    hide WellFormed, RunInv, EventsFrom, RestoreGate, RestoredRecord, Runnable, AffectedFeeder;
    assert r.run.revision in r.outages by { OutageStands(l, r); }
    RestoreAffectsNobody(l, r, req.time);
  }

  lemma ExecuteAccounts(l: Loaded, r: RunRecord, req: Request)
    requires WellFormed(l.data) && RunInv(l, r) && Runnable(l.data, r)
    requires req.kind == ExecuteRestoration && HandleExecute(l, r, req).accepted
    ensures AccountsFor(req.kind, r, HandleExecute(l, r, req).record)
  {
    hide WellFormed, RunInv, EventsFrom, BindingMatches, Projection, Executable, ExecutedRecord, Runnable;
    assert r.run.revision in r.outages by { OutageStands(l, r); }
    ExecuteAffectsNobody(l, r, req.time);
  }

  lemma FaultAccounts(l: Loaded, r: RunRecord, req: Request)
    requires WellFormed(l.data) && RunInv(l, r) && Runnable(l.data, r)
    requires req.kind == InitiateFault && HandleFault(l.data, r, req).accepted
    ensures AccountsFor(req.kind, r, HandleFault(l.data, r, req).record)
  {
    hide WellFormed, RunInv, EventsFrom, HandleFault, Runnable;
    assert r.run.revision in r.outages by { OutageStands(l, r); }
    FaultRestoresNobody(l, r, req);
  }

  /** Acknowledging, assessing and closing switch nothing. */
  lemma OthersAccount(l: Loaded, def: Definition, r: RunRecord, req: Request)
    requires RunInv(l, r) && WellShaped(req) && Runnable(l.data, r) && StepOf(l, def, r, req).accepted
    requires req.kind == AcknowledgeAlarm || req.kind == AssessRestoration || req.kind == ResetRun
    ensures AccountsFor(req.kind, r, StepOf(l, def, r, req).record)
  {
    hide RunInv, EventsFrom, AssessGate, Close, InputsFor, Assess, Runnable;
    assert r.run.revision in r.outages by { OutageStands(l, r); }
    if req.kind == ResetRun { CloseShape(r, req.commandId, req.actor, req.time); }
  }

  lemma OutageStands(l: Loaded, r: RunRecord)
    requires Runnable(l.data, r)
    ensures r.run.revision in r.outages
  {
  }

  /** Every accepted command accounts for customers as its kind does. */
  lemma StepAccounts(l: Loaded, def: Definition, r: RunRecord, req: Request)
    requires WellFormed(l.data) && RunInv(l, r) && WellShaped(req) && Runnable(l.data, r)
             && StepOf(l, def, r, req).accepted
    ensures AccountsFor(req.kind, r, StepOf(l, def, r, req).record)
  {
    hide WellFormed, RunInv, HandleFault, HandleAcknowledge, HandleIsolation, HandleRestore, HandleAssess;
    hide HandleExecute, Runnable;
    hide AccountsFor, Close;
    match req.kind
    case InitiateFault => FaultAccounts(l, r, req);
    case OperateIsolationDevice => IsolationAccounts(l, def, r, req);
    case RestoreNormalSource => RestoreAccounts(l, r, req);
    case ExecuteRestoration => ExecuteAccounts(l, r, req);
    case _ => OthersAccount(l, def, r, req);
  }

  lemma GroundingOf(l: Loaded, r: RunRecord)
    requires RunInv(l, r)
    ensures Grounding(l.data, r)
  {
    RunInvParts(l, r);
  }

  // ---------------------------------------------------------------- invalidation

  function TimesInvalidated(invalidations: seq<Invalidation>, id: nat): nat {
    if invalidations == [] then 0
    else TimesInvalidated(invalidations[1..], id) + (if invalidations[0].assessment == id then 1 else 0)
  }

  function LostEvidence(invalidations: seq<Invalidation>): nat {
    if invalidations == [] then 0
    else LostEvidence(invalidations[1..]) + (if invalidations[0].reason == EvidenceNoLongerCurrent then 1 else 0)
  }

  function TimesInFew(invalidations: seq<Invalidation>, id: nat): nat {
    (if |invalidations| > 0 && invalidations[0].assessment == id then 1 else 0)
    + (if |invalidations| > 1 && invalidations[1].assessment == id then 1 else 0)
  }

  lemma FewInvalidations(invalidations: seq<Invalidation>, id: nat)
    requires |invalidations| <= 2
    ensures TimesInvalidated(invalidations, id) == TimesInFew(invalidations, id)
    ensures LostEvidence(invalidations)
         == (if |invalidations| > 0 && invalidations[0].reason == EvidenceNoLongerCurrent then 1 else 0)
          + (if |invalidations| > 1 && invalidations[1].reason == EvidenceNoLongerCurrent then 1 else 0)
  {
    if |invalidations| == 2 { assert invalidations[1..][0] == invalidations[1] && invalidations[1..][1..] == []; }
  }

  /** There are at most two assessments and all but the last are invalidated; evidence is lost at most
      once, after which no assessment is PERMITTED; in a closed run each assessment is invalidated
      exactly once, and in an open one at most once. */
  lemma InvalidationIsFinal(l: Loaded, r: RunRecord)
    requires RunInv(l, r)
    ensures |r.assessments| <= 2
    ensures forall k | 0 <= k < |r.assessments| - 1 :: TimesInvalidated(r.invalidations, r.assessments[k].id) == 1
    ensures LostEvidence(r.invalidations) <= 1
    ensures forall k | 0 < k < |r.assessments| :: r.assessments[k].outcome != Permitted
    ensures r.run.status == RunClosed ==> forall a | a in r.assessments :: TimesInvalidated(r.invalidations, a.id) == 1
    ensures forall a | a in r.assessments :: TimesInvalidated(r.invalidations, a.id) <= 1
    ensures r.run.status != RunClosed && LostEvidence(r.invalidations) == 1 ==> r.run.network == N4 && !Executable(r)
  {
    hide Projection, Runnable, Cached, Accounted, Workflow, Grounding, Logged, Faithful;
    RunInvParts(l, r);
    InvalidationsAreIds(r);
    forall a | a in r.assessments ensures TimesInvalidated(r.invalidations, a.id) == TimesInFew(r.invalidations, a.id) {
      FewInvalidations(r.invalidations, a.id);
    }
    FewInvalidations(r.invalidations, 0);
  }
}
