/** The formal fault and its action schedule, and why a run that keeps to it is never held up. */
module Schedule {
  import opened Ids
  import opened Configuration
  import opened Topology
  import opened Telemetry
  import opened Outage
  import opened Restoration
  import opened TopologyFacts
  import opened Derivation
  import opened RestorationFacts
  import opened ExecutionFacts
  import opened Scenario
  import opened Handlers
  import opened RunInvariant
  import opened RunSteps
  import opened FaultSafety
  import opened Waiting
  import opened IsolationOrder
  import opened Advertised

  const FIRST_SWITCH := Id("SW-A12")
  const SECOND_SWITCH := Id("SW-A23")
  const FORMAL_DEFINITION := Definition(Id("SEC-A2"), [FIRST_SWITCH, SECOND_SWITCH])

  /** When the schedule puts an action, in milliseconds from the start of the run. */
  function OffsetMs(kind: CommandType, target: Option<Id>): Option<int> {
    match kind
    case OperateIsolationDevice =>
      if target == Some(FIRST_SWITCH) then Some(20_000) else if target == Some(SECOND_SWITCH)
                                                             then Some(30_000) else None
    case InitiateFault => Some(10_000)
    case AcknowledgeAlarm => Some(11_000)
    case RestoreNormalSource => Some(40_000)
    case AssessRestoration => Some(50_000)
    case ExecuteRestoration => Some(55_000)
    case ResetRun => None
  }

  lemma SwitchesDiffer()
    ensures FIRST_SWITCH != SECOND_SWITCH
  {
    assert "SW-A12"[4] != "SW-A23"[4];
  }

  // ---------------------------------------------------------------- nothing goes stale within a minute

  /** Until one minute after the run began every observation is trustworthy, so a device's proof
      status is its state. */
  lemma StatusWithinAMinute(c: Network, r: RunRecord, d: Id, time: int)
    requires Grounding(c, r) && d in r.telemetry && r.run.time <= time <= r.run.initialTime + MAXIMUM_TELEMETRY_AGE_MS
    ensures StatusAt(r.telemetry, d, time) == (if r.telemetry[d].value == Open then ProvenOpen else ProvenClosed)
    ensures Classify(r.telemetry[d], time).overallValid
  {
    hide Classify, StatusAt, DeviceIds, SourceIds, SectionIds;
    TrustworthyMeans(r.telemetry[d], time);
    StatusMeans(r.telemetry, d, time);
  }

  lemma TelemetryWithinAMinute(l: Loaded, r: RunRecord, time: int)
    requires Grounding(l.data, r) && r.run.time <= time <= r.run.initialTime + MAXIMUM_TELEMETRY_AGE_MS
    ensures TelemetryPermissive(l.data, InputsFor(l.data, r, time, 0, 1)) == Pass
  {
    hide GateTopology, OutageOf, Classify;
    forall d | d in RequiredPoints(l.data, r.telemetry) ensures Classify(r.telemetry[d], time).overallValid {
      StatusWithinAMinute(l.data, r, d, time);
    }
  }

  lemma ProvenWithinAMinute(c: Network, r: RunRecord, earlier: int, later: int)
    requires WellFormed(c) && Grounding(c, r) && r.run.faultActive
    requires r.run.time <= earlier <= later <= r.run.initialTime + MAXIMUM_TELEMETRY_AGE_MS
    ensures IsolatedIn(GateTopology(c, r, earlier)) <==> IsolatedIn(GateTopology(c, r, later))
  {
    hide WellFormed, TopologyAt, SectionIds, SourceIds, BoundarySet, IsolatedIn, StatusAt;
    IsolatedMeans(c, r.telemetry, r.run.sources, r.run.fault, earlier);
    IsolatedMeans(c, r.telemetry, r.run.sources, r.run.fault, later);
    WellFormedFacts(c);
    BoundariesAreDevices(c, r.run.fault);
    forall d | d in BoundarySet(c, r.run.fault) ensures StatusAt(r.telemetry, d, earlier)
      == StatusAt(r.telemetry, d, later) {
      StatusWithinAMinute(c, r, d, earlier);
      StatusWithinAMinute(c, r, d, later);
    }
  }

  /** Until one minute after the run began waiting does not change what the run would be assessed as. */
  lemma OutcomeWithinAMinute(l: Loaded, r: RunRecord, earlier: int, later: int)
    requires WellFormed(l.data) && Grounding(l.data, r) && r.run.faultActive
    requires r.run.time <= earlier <= later <= r.run.initialTime + MAXIMUM_TELEMETRY_AGE_MS
    ensures Projection(l, r, earlier).outcome == Projection(l, r, later).outcome
  {
    hide WellFormed, TopologyAt, OutageOf, Grounded, DeviceIds, SourceIds, SectionIds, TopologyOf, CandidateOf;
    hide IsolatedIn, CalculationOf, AlternatePermissive, RadialPermissive, CapacityPermissive, TelemetryPermissive;
    hide SameState;
    var a, b := InputsFor(l.data, r, earlier, 0, 1), InputsFor(l.data, r, later, 0, 1);
    ProjectionGrounded(l, r, earlier, 0, 1);
    ProjectionGrounded(l, r, later, 0, 1);
    GroundedSameState(l.data, a, b);
    SameStateCandidate(l, a, b);
    TelemetryWithinAMinute(l, r, earlier);
    TelemetryWithinAMinute(l, r, later);
    ProvenWithinAMinute(l.data, r, earlier, later);
    if CandidateOf(l, a).Some? {
      var k := CandidateOf(l, a).value;
      SamePermissives(l.data, a, b, k);
      PermissivesMean(l.data, a, k);
      PermissivesMean(l.data, b, k);
    }
  }

  // ---------------------------------------------------------------- the next isolation target

  lemma {:induction false} OnlyClosedIsNext(ordered: seq<Id>, evaluations: seq<BoundaryEvaluation>, d: Id)
    requires d in ordered
    requires forall x | x in ordered :: EvaluationOf(evaluations, x).Some?
    requires EvaluationOf(evaluations, d).value.status == ProvenClosed
    requires forall x | x in ordered && x != d :: EvaluationOf(evaluations, x).value.status == ProvenOpen
    ensures NextTarget(ordered, evaluations) == Some(d)
  {
    if ordered[0] != d {
      assert forall x | x in ordered[1..] :: x in ordered;
      assert d in ordered[1..];
      OnlyClosedIsNext(ordered[1..], evaluations, d);
    }
  }

  lemma SecondIsLater()
    ensures !ProcedureLeq(FORMAL_DEFINITION.sequence, SECOND_SWITCH, FIRST_SWITCH)
  {
    SwitchesDiffer();
    var sequence := FORMAL_DEFINITION.sequence;
    assert sequence[..1] == [FIRST_SWITCH];
    assert IndexIn(sequence, FIRST_SWITCH) == IndexIn(sequence[..1], FIRST_SWITCH) == 0;
  }

  /** In the formal order the first switch comes first. */
  lemma FirstComesFirst(boundaries: seq<Id>)
    requires FIRST_SWITCH in boundaries && forall d | d in boundaries :: d == FIRST_SWITCH || d == SECOND_SWITCH
    ensures OrderedBoundaries(FORMAL_DEFINITION, Formal, boundaries) != []
    ensures OrderedBoundaries(FORMAL_DEFINITION, Formal, boundaries)[0] == FIRST_SWITCH
  {
    hide Sort, ProcedureLeq;
    var leq := ProcedureOrder(FORMAL_DEFINITION.sequence);
    var ordered := OrderedBoundaries(FORMAL_DEFINITION, Formal, boundaries);
    OrderedMembers(FORMAL_DEFINITION, Formal, boundaries);
    assert FIRST_SWITCH in ordered;
    ProcedureTotal(FORMAL_DEFINITION.sequence);
    SortSorted(boundaries, leq);
    var k :| 0 <= k < |ordered| && ordered[k] == FIRST_SWITCH;
    SecondIsLater();
    assert ordered[0] in ordered;
    assert k > 0 ==> leq(ordered[0], ordered[k]);
  }

  /** The next target once every boundary but `d` is open. */
  lemma LastClosedIsNext(c: Network, def: Definition, r: RunRecord, time: int, d: Id)
    requires WellFormed(c) && Grounding(c, r) && r.run.mode == Formal && r.run.network == N1 && r.run.faultActive
    requires r.run.time <= time <= r.run.initialTime + MAXIMUM_TELEMETRY_AGE_MS
    requires d in BoundarySet(c, r.run.fault) && d in r.telemetry && r.telemetry[d].value == Closed
    requires forall x | x in BoundarySet(c, r.run.fault) && x != d :: x in r.telemetry && r.telemetry[x].value == Open
    ensures NextIsolationTarget(def, r.run, GateTopology(c, r, time)) == Some(d)
  {
    hide WellFormed, Evaluations, Boundaries, TopologyAt, OrderedBoundaries, EvaluationOf, ObservationsAt, SectionIds;
    hide SourceIds, BoundarySet, StatusOf, FreshnessAt;
    GateProof(c, r, time);
    var boundaries, o := Boundaries(c, r.run.fault), ObservationsAt(r.telemetry, time);
    BoundaryMembers(c, r.run.fault);
    OrderedMembers(def, Formal, boundaries);
    forall x | x in boundaries ensures EvaluationOf(Evaluations(boundaries, o), x)
      == Some(Evaluate(x, ObservationOf(o, x))) {
      EvaluationOfListed(boundaries, o, x);
    }
    forall x | x in boundaries ensures StatusAt(r.telemetry, x, time) == (if x == d then ProvenClosed else ProvenOpen) {
      StatusWithinAMinute(c, r, x, time);
    }
    OnlyClosedIsNext(OrderedBoundaries(def, Formal, boundaries), Evaluations(boundaries, o), d);
  }

  lemma TargetsOnSchedule(c: Network, r: RunRecord, time: int)
    requires WellFormed(c) && Grounding(c, r) && r.run.mode == Formal && r.run.network == N1 && r.run.faultActive
    requires BoundarySet(c, r.run.fault) == {FIRST_SWITCH, SECOND_SWITCH}
    requires r.run.time <= time <= r.run.initialTime + MAXIMUM_TELEMETRY_AGE_MS
    ensures FIRST_SWITCH in r.telemetry && SECOND_SWITCH in r.telemetry
    ensures r.telemetry[FIRST_SWITCH].value == Closed ==>
              NextIsolationTarget(FORMAL_DEFINITION, r.run, GateTopology(c, r, time)) == Some(FIRST_SWITCH)
    ensures r.telemetry[FIRST_SWITCH].value == Open && r.telemetry[SECOND_SWITCH].value == Closed ==>
              NextIsolationTarget(FORMAL_DEFINITION, r.run, GateTopology(c, r, time)) == Some(SECOND_SWITCH)
  {
    hide WellFormed, Evaluations, Boundaries, TopologyAt, OrderedBoundaries, EvaluationOf, ObservationsAt, SectionIds;
    hide SourceIds, BoundarySet, StatusOf, FreshnessAt;
    WellFormedFacts(c);
    BoundariesAreDevices(c, r.run.fault);
    GateProof(c, r, time);
    var boundaries, o := Boundaries(c, r.run.fault), ObservationsAt(r.telemetry, time);
    BoundaryMembers(c, r.run.fault);
    OrderedMembers(FORMAL_DEFINITION, Formal, boundaries);
    FirstComesFirst(boundaries);
    forall d | d in boundaries ensures EvaluationOf(Evaluations(boundaries, o), d)
      == Some(Evaluate(d, ObservationOf(o, d))) {
      EvaluationOfListed(boundaries, o, d);
    }
    StatusWithinAMinute(c, r, FIRST_SWITCH, time);
    StatusWithinAMinute(c, r, SECOND_SWITCH, time);
    SwitchesDiffer();
    if r.telemetry[FIRST_SWITCH].value == Open && r.telemetry[SECOND_SWITCH].value == Closed {
      LastClosedIsNext(c, FORMAL_DEFINITION, r, time, SECOND_SWITCH);
    }
  }

  // ---------------------------------------------------------------- stations of the schedule

  function StationMs(k: nat): int {
    match k
    case 0 => 0 case 1 => 10_000 case 2 => 11_000 case 3 => 20_000 case 4 => 30_000 case 5 => 40_000 case 6 => 50_000
    case _ => 55_000
  }

  function StationNetwork(k: nat): NetworkState {
    match k case 0 => N0 case 1 => N1 case 2 => N1 case 3 => N1 case 4 => N2 case 5 => N3 case 6 => N4 case _ => N5
  }

  function StationKind(k: nat): CommandType {
    match k
    case 0 => InitiateFault case 1 => AcknowledgeAlarm
    case 2 => OperateIsolationDevice case 3 => OperateIsolationDevice
    case 4 => RestoreNormalSource case 5 => AssessRestoration case _ => ExecuteRestoration
  }

  /** The network the schedule was written for: the two switches and nothing else bound the fault. */
  ghost predicate FormalNetwork(c: Network, r: RunRecord)
    requires Runnable(c, r)
  {
    && r.run.mode == Formal && BoundarySet(c, r.run.fault) == {FIRST_SWITCH, SECOND_SWITCH}
    && BreakerId(c, r) != FIRST_SWITCH && BreakerId(c, r) != SECOND_SWITCH && BreakerNormallyClosed(c, r)
  }

  predicate NormallyClosed(c: Network, d: Id) {
    DeviceById(c, d).Some? && DeviceById(c, d).value.normalState == Closed
  }

  function NormalStates(c: Network): States { StatesOf(NormalPoints(c, 0)) }

  /** The states of the switching devices after `k` scheduled actions, until a tie is closed. */
  function ScheduledStates(c: Network, b: Id, k: nat): States {
    var tripped := if 1 <= k <= 4 then NormalStates(c)[b := Open] else NormalStates(c);
    var isolating := if k >= 3 then tripped[FIRST_SWITCH := Open] else tripped;
    if k >= 4 then isolating[SECOND_SWITCH := Open] else isolating
  }

  /** Nothing but the scheduled actions has switched anything. */
  ghost predicate AsSwitched(c: Network, r: RunRecord, k: nat)
    requires Runnable(c, r)
  {
    && NormallyClosed(c, BreakerId(c, r)) && r.run.sources == NormalSources(c)
    && (k <= 6 ==> SwitchStates(r) == ScheduledStates(c, BreakerId(c, r), k))
  }

  /** Where the workflow stands after `k` of the seven scheduled actions. */
  ghost predicate OnStation(l: Loaded, r: RunRecord, k: nat) {
    && k <= 7 && RunInv(l, r) && FaultIsDead(l.data, r) && FormalNetwork(l.data, r) && r.run.status != RunClosed
    && r.run.time == r.run.initialTime + StationMs(k) && r.run.network == StationNetwork(k)
    && (k >= 1 ==> |r.alarms| == 1 && r.alarms[0].active && r.alarms[0].acknowledged == (k >= 2))
    && FIRST_SWITCH in r.telemetry && SECOND_SWITCH in r.telemetry
    && r.telemetry[FIRST_SWITCH].value == (if k >= 3 then Open else Closed)
    && r.telemetry[SECOND_SWITCH].value == (if k >= 4 then Open else Closed)
    && (k == 6 ==> r.invalidations == [] && r.assessments != [] && r.assessments[|r.assessments|-1].time == r.run.time)
  }

  /** After `k` of the seven scheduled actions. */
  ghost predicate OnSchedule(l: Loaded, r: RunRecord, k: nat) {
    OnStation(l, r, k) && AsSwitched(l.data, r, k)
  }
}
