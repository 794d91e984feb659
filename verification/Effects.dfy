/** What an accepted command writes and logs, row by row, and what its answer reports. */
module Effects {
  import opened Ids
  import opened Configuration
  import opened Topology
  import opened Telemetry
  import opened Outage
  import opened Restoration
  import opened Energisation
  import opened TopologyFacts
  import opened Derivation
  import opened RestorationFacts
  import opened AssessmentMeaning
  import opened Scenario
  import opened Handlers
  import opened RunInvariant
  import opened RunPreservation
  import opened RunSteps
  import opened FaultSafety
  import opened IsolationOrder
  import opened Acceptance

  // ---------------------------------------------------------------- the log

  /** The log gains these entries, numbered on, at the command's time, under the run's new revision, the command
      and its actor. */
  ghost predicate Logs(r: RunRecord, s: RunRecord, req: Request, entries: seq<EventSpec>) {
    && |s.events| == |r.events| + |entries| && s.events[..|r.events|] == r.events
    && forall k | 0 <= k < |entries| :: s.events[|r.events| + k]
         == Event(|r.events| + k + 1, req.time, s.run.revision, entries[k], req.commandId, req.actor)
  }

  /** The answer names the entries the log gained. */
  ghost predicate Reports(r: RunRecord, numbers: seq<int>, entries: seq<EventSpec>) {
    |numbers| == |entries| && forall k | 0 <= k < |entries| :: numbers[k] == |r.events| + k + 1
  }

  lemma RecordLogs(l: Loaded, r: RunRecord, m: RunRecord, req: Request, entries: seq<EventSpec>)
    requires RunInv(l, r) && m.events == r.events && m.run.time == req.time
    ensures var s := Record(m, req.commandId, req.actor, entries);
            Logs(r, s, req, entries) && s == m.(events := s.events)
    ensures Reports(r, Sequences(m, entries), entries) && MaxSequence(r.events) == |r.events|
  {
    hide Grounding, Workflow, Cached, Accounted, AssessedOnce, Invalidated, Runnable;
    RunInvParts(l, r);
    SequenceIsLength(r.events);
    var s := Record(m, req.commandId, req.actor, entries);
    assert s.events == r.events + EventsFrom(m.run, |r.events| + 1, req.commandId, req.actor, entries);
  }

  // ---------------------------------------------------------------- the rows a switching action writes

  /** The outage of the new revision: the sections without supply now, their zones and customers, and the
      customers of those that had none before and have some now. */
  ghost predicate OutageFollows(c: Network, r: RunRecord, s: RunRecord) {
    var n := r.run.revision + 1;
    && s.outages.Keys == r.outages.Keys + {n} && r.run.revision in r.outages
    && (forall k | k in r.outages && k != n :: s.outages[k] == r.outages[k])
    && s.outages[n].deEnergised == SectionIds(c) - LiveOf(c, s)
    && (forall z :: z in s.outages[n].zones <==> z in c.zones && z.sectionId in s.outages[n].deEnergised)
    && SortedBy(s.outages[n].zones, ZoneLeq)
    && s.outages[n].affected == CustomersOf(c.zones, s.outages[n].deEnergised)
    && s.outages[n].restoredDelta
       == CustomersOf(c.zones, r.outages[r.run.revision].deEnergised - s.outages[n].deEnergised)
  }

  /** One device is observed in its new state, good and new, and the next revision's topology and outage are
      derived from that; other points, assessments and invalidations stay. */
  ghost predicate Switches(c: Network, r: RunRecord, req: Request, s: RunRecord, d: Id, value: SwitchState) {
    && s.telemetry == r.telemetry[d := Point(value, Good, req.time, r.run.revision + 1)]
    && s.topologies == r.topologies[r.run.revision + 1 :=
         TopologyAt(c, s.telemetry, r.run.sources, Some(r.run.fault), req.time)]
    && OutageFollows(c, r, s)
    && s.assessments == r.assessments && s.invalidations == r.invalidations
  }

  /** The entries of a switching action on `d`. */
  function SwitchEntries(d: Id, assessment: Option<nat>): seq<EventSpec> {
    [EventSpec(SwitchingAction, Some(d), None, assessment),
     EventSpec(TelemetryUpdated, Some(d), None, assessment),
     EventSpec(DeviceStateChange, Some(d), None, assessment),
     EventSpec(TopologyRecalculated, None, None, assessment),
     EventSpec(OutageUpdated, None, None, assessment)]
  }

  /** The entries of a fault that trips the breaker `b` and raises the alarm `alarm`. */
  function FaultEntries(fault: Id, b: Id, alarm: nat): seq<EventSpec> {
    [EventSpec(FaultInitiated, Some(fault), None, None),
     EventSpec(TelemetryUpdated, Some(b), None, None),
     EventSpec(DeviceStateChange, Some(b), None, None),
     EventSpec(AlarmGenerated, Some(b), Some(alarm), None),
     EventSpec(TopologyRecalculated, None, None, None),
     EventSpec(OutageUpdated, None, None, None)]
  }

  lemma EntriesAre(d: Id, b: Id, fault: Id, alarm: nat, assessment: Option<nat>)
    ensures SwitchEntries(d, assessment) == SwitchingSpecs(d, assessment)
    ensures FaultEntries(fault, b, alarm)
            == [Spec(FaultInitiated, Some(fault)), Spec(TelemetryUpdated, Some(b)), Spec(DeviceStateChange, Some(b)),
                EventSpec(AlarmGenerated, Some(b), Some(alarm), None)] + DerivedSpecs(None)
  {
  }

  lemma AdvanceSwitches(l: Loaded, r: RunRecord, req: Request, run: RunContext, d: Id, value: SwitchState)
    requires WellFormed(l.data) && RunInv(l, r) && r.run.revision in r.outages
    requires run.revision == r.run.revision + 1 && run.time == req.time && run.sources == r.run.sources
    requires run.fault == r.run.fault && run.faultActive
    ensures var s := Advance(l.data, r, run, Refresh(r.telemetry, d, value, req.time, run.revision));
            Switches(l.data, r, req, s, d, value) && s.run == run && s.events == r.events && s.alarms == r.alarms
  {
    hide WellFormed, TopologyAt, OutageOf, Grounding, Workflow, Accounted, Logged, AssessedOnce, Invalidated, Live;
    hide SectionIds, Runnable, ZonesIn, SortedZones, Customers;
    RunInvParts(l, r);
    var c, points := l.data, Refresh(r.telemetry, d, value, req.time, run.revision);
    var s := Advance(c, r, run, points);
    AdvanceOutage(c, r, run, points);
    NewOutage(c, r, run, points);
    assert OutageFollows(c, r, s);
  }

  lemma NewOutage(c: Network, r: RunRecord, run: RunContext, points: map<Id, Point>)
    requires WellFormed(c) && Cached(c, r) && run.revision == r.run.revision + 1
    ensures var o, p := Advance(c, r, run, points).outages[run.revision], r.outages[r.run.revision];
            && o.affected == CustomersOf(c.zones, o.deEnergised)
            && o.restoredDelta == CustomersOf(c.zones, p.deEnergised - o.deEnergised)
            && SortedBy(o.zones, ZoneLeq)
            && forall z :: z in o.zones <==> z in c.zones && z.sectionId in o.deEnergised
  {
    hide WellFormed, TopologyAt, ZonesConsistent, SortedZones, Live, Customers, CustomersOf, ZonesIn, DeEnergised;
    hide CustomersOutside;
    var t, p := TopologyAt(c, points, run.sources, ActiveFault(run), run.time), r.outages[r.run.revision];
    WellFormedZones(c);
    OutageMeans(c, t, Some(p), p.deEnergised);
    ZonesInMembers(SortedZones(c), DeEnergised(t));
    SortedZoneMembers(c);
    ZonesSorted(c);
    ZonesInSorted(SortedZones(c), DeEnergised(t));
  }

  lemma SortedZoneMembers(c: Network)
    ensures forall z :: z in SortedZones(c) <==> z in c.zones
  {
    hide Sort;
    SortElements(c.zones, ZoneLeq);
  }

  // ---------------------------------------------------------------- each command

  ghost predicate FaultDone(c: Network, r: RunRecord, req: Request, s: RunRecord, entries: seq<EventSpec>)
    requires Runnable(c, r)
  {
    var b := BreakerId(c, r);
    && s.run == r.run.(time := req.time, revision := r.run.revision + 1, stage := PostFault, network := N1,
                       status := Active, faultActive := true)
    && Switches(c, r, req, s, b, Open)
    && s.alarms == [Alarm(req.commandId, b, true, false, req.time, None, None)]
    && entries == FaultEntries(r.run.fault, b, req.commandId)
  }

  ghost predicate AcknowledgementDone(r: RunRecord, req: Request, s: RunRecord, entries: seq<EventSpec>) {
    && s == r.(run := r.run.(time := req.time), alarms := s.alarms, events := s.events)
    && |s.alarms| == |r.alarms|
    && (forall k | 0 <= k < |r.alarms| :: s.alarms[k] ==
          if Some(r.alarms[k].id) == req.alarm
          then r.alarms[k].(acknowledged := true, acknowledgedAt := Some(req.time), acknowledgedBy := Some(req.actor))
          else r.alarms[k])
    && exists k :: 0 <= k < |r.alarms| && Some(r.alarms[k].id) == req.alarm
         && entries == [EventSpec(AlarmAcknowledged, Some(r.alarms[k].device), req.alarm, None)]
  }

  /** Every other boundary is observed open, so that opening this one completes the isolation. */
  ghost predicate LastToOpen(c: Network, r: RunRecord, d: Id, time: int) {
    forall y | y in BoundarySet(c, r.run.fault) && y != d :: ObservedAs(r.telemetry, y, Open, time)
  }

  ghost predicate IsolationDone(c: Network, r: RunRecord, req: Request, s: RunRecord, entries: seq<EventSpec>)
    requires req.target.Some?
  {
    var last := LastToOpen(c, r, req.target.value, req.time);
    && s.run == r.run.(time := req.time, revision := r.run.revision + 1, status := Active,
                       stage := if last then FaultIsolated else Isolating, network := if last then N2 else N1)
    && Switches(c, r, req, s, req.target.value, Open) && s.alarms == r.alarms
    && entries == SwitchEntries(req.target.value, None)
  }

  ghost predicate RestoreDone(c: Network, r: RunRecord, req: Request, s: RunRecord, entries: seq<EventSpec>)
    requires Runnable(c, r)
  {
    && s.run == r.run.(time := req.time, revision := r.run.revision + 1, stage := UpstreamRestored, network := N3,
                       status := Active)
    && Switches(c, r, req, s, BreakerId(c, r), Closed) && s.alarms == r.alarms
    && entries == SwitchEntries(BreakerId(c, r), None)
  }

  /** An assessment of the run as it is, under the command's name and the next number, is added. */
  ghost predicate AssessmentDone(l: Loaded, r: RunRecord, req: Request, s: RunRecord, entries: seq<EventSpec>) {
    && s == r.(run := r.run.(time := req.time, stage := RestorationAssessed, network := N4),
               assessments := s.assessments, events := s.events)
    && |s.assessments| == |r.assessments| + 1 && s.assessments[..|r.assessments|] == r.assessments
    && (var a := s.assessments[|r.assessments|];
        && AssessmentSays(l, InputsFor(l.data, r, req.time, req.commandId, a.sequence), a)
        && (forall k | 0 <= k < |r.assessments| :: r.assessments[k].sequence < a.sequence)
        && entries == [EventSpec(if a.candidate.Some? then CandidateIdentified else CandidateAbsent, TieOf(a), None,
                                 Some(req.commandId)),
                       EventSpec(Assessed, TieOf(a), None, Some(req.commandId))])
  }

  /** The tie of the assessment the request names is closed. */
  ghost predicate ExecutionDone(c: Network, r: RunRecord, req: Request, s: RunRecord, entries: seq<EventSpec>) {
    && LastAssessment(r).Some? && LastAssessment(r).value.candidate.Some?
    && (var tie := LastAssessment(r).value.candidate.value.tie;
        && s.run == r.run.(time := req.time, revision := r.run.revision + 1, stage := RestorationExecuted,
                           network := N5, status := RunComplete)
        && Switches(c, r, req, s, tie, Closed) && s.alarms == r.alarms
        && entries == SwitchEntries(tie, req.assessment))
  }

  /** The run is closed, and its last assessment, if it still stood, is invalidated by the reset. */
  ghost predicate ResetDone(r: RunRecord, req: Request, s: RunRecord, entries: seq<EventSpec>) {
    var a := LastAssessment(r);
    && s == r.(run := r.run.(time := req.time, status := RunClosed), events := s.events,
               invalidations := s.invalidations)
    && if a.Some? && !WasInvalidated(r, a.value)
       then && entries == [EventSpec(AssessmentInvalidated, TieOf(a.value), None, Some(a.value.id)),
                           EventSpec(ScenarioReset, None, None, None)]
            && s.invalidations
               == r.invalidations + [Invalidation(a.value.id, r.run.revision, req.time, ByReset, |r.events| + 1)]
       else entries == [EventSpec(ScenarioReset, None, None, None)] && s.invalidations == r.invalidations
  }

  /** The rows an accepted command leaves, the entries it logs and the reason it is answered with. */
  ghost predicate TakesEffect(l: Loaded, r: RunRecord, req: Request, step: Step, entries: seq<EventSpec>)
    requires Runnable(l.data, r) && WellShaped(req)
  {
    && Logs(r, step.record, req, entries) && Reports(r, step.newEvents, entries)
    && step.newAssessments == (if req.kind == AssessRestoration then [req.commandId] else [])
    && match req.kind
       case InitiateFault => FaultDone(l.data, r, req, step.record, entries) && step.reason == FaultWasInitiated
       case AcknowledgeAlarm =>
         AcknowledgementDone(r, req, step.record, entries) && step.reason == AlarmWasAcknowledged
       case OperateIsolationDevice =>
         IsolationDone(l.data, r, req, step.record, entries)
         && step.reason == if LastToOpen(l.data, r, req.target.value, req.time)
            then FaultWasIsolated else IsolationAccepted
       case RestoreNormalSource => RestoreDone(l.data, r, req, step.record, entries) && step.reason == SourceRestored
       case AssessRestoration =>
         AssessmentDone(l, r, req, step.record, entries)
         && step.reason == AssessmentRecorded(step.record.assessments[|r.assessments|].outcome)
       case ExecuteRestoration =>
         ExecutionDone(l.data, r, req, step.record, entries) && step.reason == RestorationDone
       case ResetRun => ResetDone(r, req, step.record, entries) && step.reason == RunWasReset
  }

  // ---------------------------------------------------------------- proofs, command by command

  /** Only the events differ. */
  lemma SwitchesFrame(c: Network, r: RunRecord, req: Request, m: RunRecord, s: RunRecord, d: Id, value: SwitchState)
    requires Switches(c, r, req, m, d, value) && s == m.(events := s.events, alarms := s.alarms)
    ensures Switches(c, r, req, s, d, value)
  {
    hide TopologyAt, Live, SectionIds;
  }

  lemma OutageStored(l: Loaded, r: RunRecord)
    requires RunInv(l, r)
    ensures r.run.revision in r.outages && |r.alarms| <= 1
    ensures r.run.network == N0 ==> r.alarms == []
    ensures r.run.faultActive <==> r.run.network != N0
  {
    hide Grounding, Cached, Accounted, Logged, AssessedOnce, Invalidated;
    RunInvParts(l, r);
  }

  lemma FaultWrites(l: Loaded, r: RunRecord, req: Request) returns (entries: seq<EventSpec>)
    requires WellFormed(l.data) && RunInv(l, r) && Runnable(l.data, r) && WellShaped(req) && req.kind == InitiateFault
    requires HandleFault(l.data, r, req).accepted
    ensures TakesEffect(l, r, req, HandleFault(l.data, r, req), entries)
  {
    hide WellFormed, RunInv, Runnable, Switches, Advance, Record, Sequences, Logs, Reports, MaxSequence;
    OutageStored(l, r);
    var c, b := l.data, BreakerId(l.data, r);
    var run := r.run.(time := req.time, revision := r.run.revision + 1, stage := PostFault, network := N1,
                      status := Active, faultActive := true);
    AdvanceSwitches(l, r, req, run, b, Open);
    var advanced := Advance(c, r, run, Refresh(r.telemetry, b, Open, req.time, run.revision));
    var m := FaultedRecord(c, r, req);
    entries := FaultEntries(r.run.fault, b, req.commandId);
    EntriesAre(b, b, r.run.fault, req.commandId, None);
    RecordLogs(l, r, m, req, entries);
    SwitchesFrame(c, r, req, advanced, HandleFault(c, r, req).record, b, Open);
  }

  lemma AcknowledgementWrites(l: Loaded, r: RunRecord, req: Request) returns (entries: seq<EventSpec>)
    requires RunInv(l, r) && Runnable(l.data, r) && WellShaped(req) && req.kind == AcknowledgeAlarm
    requires HandleAcknowledge(r, req).accepted
    ensures TakesEffect(l, r, req, HandleAcknowledge(r, req), entries)
  {
    hide RunInv, Runnable, Record, Sequences, Logs, Reports, MaxSequence;
    OutageStored(l, r);
    var k := AlarmIndex(r.alarms, req.alarm);
    var alarm := r.alarms[k].(acknowledged := true, acknowledgedAt := Some(req.time),
                              acknowledgedBy := Some(req.actor));
    var m := r.(alarms := r.alarms[k := alarm], run := r.run.(time := req.time));
    entries := [EventSpec(AlarmAcknowledged, Some(alarm.device), Some(alarm.id), None)];
    RecordLogs(l, r, m, req, entries);
  }

  lemma IsolatesWhenLast(l: Loaded, r: RunRecord, d: Id, time: int)
    requires WellFormed(l.data) && RunInv(l, r) && r.run.faultActive && d in BoundarySet(l.data, r.run.fault)
    ensures IsolatedIn(TopologyAt(l.data, Refresh(r.telemetry, d, Open, time, r.run.revision + 1), r.run.sources,
                                  ActiveFault(r.run), time))
            <==> LastToOpen(l.data, r, d, time)
  {
    hide WellFormed, RunInv, TopologyAt, ProvenOpenAt, IsolatedIn, Grounding, SectionIds, BoundarySet;
    GroundingRun(l, r);
    FaultIsConfigured(l.data, r);
    var points := Refresh(r.telemetry, d, Open, time, r.run.revision + 1);
    IsolatedMeans(l.data, points, r.run.sources, r.run.fault, time);
    BoundaryProvenMeans(l.data, points, r.run.fault, time);
    assert ObservedAs(points, d, Open, time);
    assert forall y | y != d :: ObservedAs(points, y, Open, time) <==> ObservedAs(r.telemetry, y, Open, time);
    assert BoundaryProven(l.data, points, r.run.fault, time) <==>
           forall y | y in BoundarySet(l.data, r.run.fault) :: ObservedAs(points, y, Open, time);
  }

  lemma IsolationWrites(l: Loaded, def: Definition, r: RunRecord, req: Request) returns (entries: seq<EventSpec>)
    requires WellFormed(l.data) && RunInv(l, r) && Runnable(l.data, r) && WellShaped(req)
    requires req.kind == OperateIsolationDevice && HandleIsolation(l.data, def, r, req).accepted
    ensures TakesEffect(l, r, req, HandleIsolation(l.data, def, r, req), entries)
  {
    hide WellFormed, RunInv, Runnable, Switches, Advance, Record, Sequences, Logs, Reports, MaxSequence;
    hide TargetAvailable;
    hide GateTopology, IsolatedIn, TopologyAt, LastToOpen, BoundarySet, ObservedAs, Precedes;
    OutageStored(l, r);
    IsolationIff(l, def, r, req);
    var c, d := l.data, req.target.value;
    IsolatesWhenLast(l, r, d, req.time);
    var m := IsolatedRecord(c, r, d, req.time);
    AdvanceRun(c, r, d, req.time);
    AdvanceSwitches(l, r, req, m.run, d, Open);
    entries := SwitchEntries(d, None);
    EntriesAre(d, d, r.run.fault, 0, None);
    RecordLogs(l, r, m, req, entries);
    SwitchesFrame(c, r, req, m, HandleIsolation(c, def, r, req).record, d, Open);
  }

  lemma AdvanceRun(c: Network, r: RunRecord, d: Id, time: int)
    requires Runnable(c, r)
    ensures var m := IsolatedRecord(c, r, d, time);
            var points := Refresh(r.telemetry, d, Open, time, r.run.revision + 1);
            var isolated := IsolatedIn(TopologyAt(c, points, r.run.sources, ActiveFault(r.run), time));
            && m == Advance(c, r, m.run, points)
            && m.run == r.run.(time := time, revision := r.run.revision + 1, status := Active,
                               stage := if isolated then FaultIsolated else Isolating,
                               network := if isolated then N2 else N1)
  {
    hide IsolatedIn, TopologyAt, OutageOf;
  }

  lemma RestoreWrites(l: Loaded, r: RunRecord, req: Request) returns (entries: seq<EventSpec>)
    requires WellFormed(l.data) && RunInv(l, r) && Runnable(l.data, r) && WellShaped(req)
    requires req.kind == RestoreNormalSource && HandleRestore(l.data, r, req).accepted
    ensures TakesEffect(l, r, req, HandleRestore(l.data, r, req), entries)
  {
    hide WellFormed, RunInv, Runnable, Switches, Advance, Record, Sequences, Logs, Reports, MaxSequence, IsolatedIn;
    hide GateTopology, RecloseAvailable;
    OutageStored(l, r);
    var c, b := l.data, BreakerId(l.data, r);
    var m := RestoredRecord(c, r, req.time);
    var run := r.run.(time := req.time, revision := r.run.revision + 1, stage := UpstreamRestored, network := N3,
                      status := Active);
    AdvanceSwitches(l, r, req, run, b, Closed);
    entries := SwitchEntries(b, None);
    EntriesAre(b, b, r.run.fault, 0, None);
    RecordLogs(l, r, m, req, entries);
    SwitchesFrame(c, r, req, m, HandleRestore(c, r, req).record, b, Closed);
  }

  lemma AssessmentWrites(l: Loaded, r: RunRecord, req: Request) returns (entries: seq<EventSpec>)
    requires WellFormed(l.data) && RunInv(l, r) && Runnable(l.data, r) && WellShaped(req)
    requires req.kind == AssessRestoration && HandleAssess(l, r, req).accepted
    ensures TakesEffect(l, r, req, HandleAssess(l, r, req), entries)
  {
    hide WellFormed, RunInv, Runnable, Record, Sequences, Logs, Reports, MaxSequence, AssessGate, Assess;
    hide AssessmentSays;
    hide InputsFor, Grounding, Grounded, MaxAssessmentSequence, AffectedFeeder;
    OutageStored(l, r);
    AssessFrom(l, r, req.time);
    GroundingRun(l, r);
    var next := MaxAssessmentSequence(r.assessments) + 1;
    MaxAssessmentIsMax(r.assessments);
    ProjectionGrounded(l, r, req.time, req.commandId, next);
    AssessmentMeans(l, InputsFor(l.data, r, req.time, req.commandId, next));
    var m := AssessedRecord(l, r, req.time, req.commandId);
    var a := m.assessments[|r.assessments|];
    OutcomeIgnoresIdentity(l, r, req.time, req.commandId, next);
    entries := [EventSpec(if a.candidate.Some? then CandidateIdentified
                                                    else CandidateAbsent, TieOf(a), None, Some(a.id)),
                EventSpec(Assessed, TieOf(a), None, Some(a.id))];
    RecordLogs(l, r, m, req, entries);
  }

  lemma ExecutionWrites(l: Loaded, r: RunRecord, req: Request) returns (entries: seq<EventSpec>)
    requires WellFormed(l.data) && RunInv(l, r) && Runnable(l.data, r) && WellShaped(req)
    requires req.kind == ExecuteRestoration && HandleExecute(l, r, req).accepted
    ensures TakesEffect(l, r, req, HandleExecute(l, r, req), entries)
  {
    hide WellFormed, RunInv, Runnable, Switches, Advance, Record, Sequences, Logs, Reports, MaxSequence, Projection;
    hide BindingMatches, AffectedFeeder;
    OutageStored(l, r);
    var c, tie := l.data, CurrentTie(r);
    var m := ExecutedRecord(c, r, req.time);
    var run := r.run.(time := req.time, revision := r.run.revision + 1, stage := RestorationExecuted, network := N5,
                      status := RunComplete);
    AdvanceSwitches(l, r, req, run, tie, Closed);
    entries := SwitchEntries(tie, req.assessment);
    EntriesAre(tie, tie, r.run.fault, 0, req.assessment);
    RecordLogs(l, r, m, req, entries);
    SwitchesFrame(c, r, req, m, HandleExecute(l, r, req).record, tie, Closed);
  }

  lemma ResetWrites(l: Loaded, r: RunRecord, req: Request) returns (entries: seq<EventSpec>)
    requires RunInv(l, r) && Runnable(l.data, r) && WellShaped(req) && req.kind == ResetRun
    ensures TakesEffect(l, r, req, HandleReset(r, req), entries)
  {
    hide RunInv, Runnable, Record, Sequences, Logs, Reports, MaxSequence, WasInvalidated, Close, InvalidatedIds;
    var closed := r.(run := r.run.(time := req.time, status := RunClosed));
    if r.assessments != [] { InvalidatedMeans(r, r.assessments[|r.assessments|-1]); }
    entries := CloseSpecs(r);
    CloseShape(r, req.commandId, req.actor, req.time);
    RecordLogs(l, r, closed, req, entries);
    RecordLogs(l, r, r.(run := r.run.(time := req.time)), req, entries);
    ClosedLogs(r, closed, req, entries);
  }

  lemma ClosedLogs(r: RunRecord, closed: RunRecord, req: Request, entries: seq<EventSpec>)
    requires Logs(r, Record(closed, req.commandId, req.actor, entries), req, entries)
             && closed == r.(run := r.run.(time := req.time, status := RunClosed)) && entries == CloseSpecs(r)
    ensures Logs(r, Close(r, req.commandId, req.actor, req.time), req, entries)
    ensures Sequences(r, entries) == Sequences(closed, entries)
  {
    hide CloseSpecs, Record;
    CloseShape(r, req.commandId, req.actor, req.time);
    RecordRun(closed, req.commandId, req.actor, entries);
  }

  lemma RecordRun(r: RunRecord, command: nat, actor: string, entries: seq<EventSpec>)
    ensures Record(r, command, actor, entries).run == r.run
  {
  }

  // ---------------------------------------------------------------- every command

  lemma HandledEffects(l: Loaded, def: Definition, r: RunRecord, req: Request) returns (entries: seq<EventSpec>)
    requires WellFormed(l.data) && RunInv(l, r) && Runnable(l.data, r) && WellShaped(req) && req.kind != ResetRun
    requires Handle(l, def, r, req).accepted
    ensures TakesEffect(l, r, req, Handle(l, def, r, req), entries)
  {
    hide WellFormed, RunInv, Runnable, TakesEffect, HandleFault, HandleAcknowledge, HandleIsolation, HandleRestore;
    hide HandleAssess, HandleExecute;
    match req.kind
    case InitiateFault => entries := FaultWrites(l, r, req);
    case AcknowledgeAlarm => entries := AcknowledgementWrites(l, r, req);
    case OperateIsolationDevice => entries := IsolationWrites(l, def, r, req);
    case RestoreNormalSource => entries := RestoreWrites(l, r, req);
    case AssessRestoration => entries := AssessmentWrites(l, r, req);
    case ExecuteRestoration => entries := ExecutionWrites(l, r, req);
  }

  /** What every accepted command writes, logs and answers. */
  lemma AcceptedEffects(l: Loaded, def: Definition, r: RunRecord, req: Request)
    requires WellFormed(l.data) && RunInv(l, r) && Runnable(l.data, r) && WellShaped(req)
    requires StepOf(l, def, r, req).accepted
    ensures exists entries :: TakesEffect(l, r, req, StepOf(l, def, r, req), entries)
  {
    hide WellFormed, RunInv, Runnable, TakesEffect, Handle, HandleReset;
    if req.kind == ResetRun {
      var entries := ResetWrites(l, r, req);
      assert TakesEffect(l, r, req, StepOf(l, def, r, req), entries);
    } else {
      var entries := HandledEffects(l, def, r, req);
      assert TakesEffect(l, r, req, StepOf(l, def, r, req), entries);
    }
  }

  /** What the loss of an assessment's evidence writes: the run's time, one entry, and the invalidation. */
  lemma LossWrites(l: Loaded, def: Definition, r: RunRecord, req: Request)
    requires WellFormed(l.data) && RunInv(l, r) && Runnable(l.data, r) && WellShaped(req)
    requires StepOf(l, def, r, req).reason == AssessmentNoLongerValid
    ensures req.kind == ExecuteRestoration && LastAssessment(r).Some?
    ensures var step, a := StepOf(l, def, r, req), LastAssessment(r).value;
            var entries := [EventSpec(AssessmentInvalidated, TieOf(a), None, Some(a.id))];
            && !step.accepted && step.newAssessments == []
            && Logs(r, step.record, req, entries) && Reports(r, step.newEvents, entries)
            && step.record == r.(run := r.run.(time := req.time), events := step.record.events,
                                 invalidations := r.invalidations + [Invalidation(
                                   a.id, r.run.revision, req.time, EvidenceNoLongerCurrent, |r.events| + 1)])
  {
    hide WellFormed, RunInv, Runnable, Record, Sequences, Logs, MaxSequence, Projection, BindingMatches;
    OnlyExecutionLoses(l, def, r, req);
    var a := r.assessments[|r.assessments|-1];
    var m := r.(run := r.run.(time := req.time));
    RecordLogs(l, r, m, req, [EventSpec(AssessmentInvalidated, Some(CurrentTie(r)), None, Some(a.id))]);
    LogsFrame(r, Record(m, req.commandId, req.actor, [EventSpec(AssessmentInvalidated, TieOf(a), None, Some(a.id))]),
              StepOf(l, def, r, req).record, req, [EventSpec(AssessmentInvalidated, TieOf(a), None, Some(a.id))]);
  }

  lemma LogsFrame(r: RunRecord, m: RunRecord, s: RunRecord, req: Request, entries: seq<EventSpec>)
    requires Logs(r, m, req, entries) && s == m.(invalidations := s.invalidations)
    ensures Logs(r, s, req, entries)
  {
  }

  lemma OnlyExecutionLoses(l: Loaded, def: Definition, r: RunRecord, req: Request)
    requires Runnable(l.data, r) && WellShaped(req) && StepOf(l, def, r, req).reason == AssessmentNoLongerValid
    ensures req.kind == ExecuteRestoration && Executable(r)
            && StepOf(l, def, r, req)
               == Step(InvalidatedRecord(r, req), false, AssessmentNoLongerValid, [MaxSequence(r.events) + 1], [])
  {
    hide FaultedRecord, IsolatedRecord, RestoredRecord, AssessedRecord, Close, EventsFrom, Runnable, AffectedFeeder;
    hide TargetAvailable, RestoreGate, AssessGate, GateTopology, AlarmIndex, Projection, BindingMatches, ExecutedRecord;
    hide InvalidatedRecord, MaxSequence;
  }
}
