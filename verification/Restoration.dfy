/** Restoration candidate discovery and the five permissives of one assessment. */
module Restoration {
  import opened Ids
  import opened Configuration
  import opened Topology
  import opened Telemetry
  import opened Outage

  datatype Loaded = Loaded(configurationId: string, version: string, data: Network)

  datatype Outcome = NoCandidate | Blocked | Rejected | Permitted
  datatype Permissive = Pass | Fail | Insufficient
  datatype Permissives = Permissives(
    isolation: Permissive, alternate: Permissive, radial: Permissive, telemetry: Permissive, capacity: Permissive)

  /** The content the candidate identifier is computed from. */
  datatype CandidateKey = CandidateKey(configurationId: string, fault: Id, tie: Id, alternateFeeder: Id,
                                       sections: set<Id>)
  datatype Candidate = Candidate(
    key: CandidateKey, affectedFeeder: Id, alternateFeeder: Id, alternateSource: Id, alternateBreaker: Id,
    tie: Id, sections: set<Id>, pathEdges: set<Id>, transferableKw: nat, restoredCustomers: nat)
  datatype Calculation = Calculation(existingKw: nat, transferableKw: nat, resultingKw: nat, capacityKw: nat,
                                     pass: bool)

  datatype AssessmentInputs = AssessmentInputs(
    id: nat, sequence: nat, runId: nat, revision: nat, time: int, fault: Id,
    points: map<Id, Point>, sources: Sources, topology: TopologyResult, outage: OutageResult)

  /** The telemetry and source digests are kept as the content they digest. */
  datatype Assessment = Assessment(
    id: nat, sequence: nat, runId: nat, configurationId: string, revision: nat, time: int,
    candidate: Option<Candidate>, telemetry: map<Id, Point>, sources: Sources,
    permissives: Option<Permissives>, calculation: Option<Calculation>, outcome: Outcome)

  function StatesOf(points: map<Id, Point>): States { map d | d in points :: points[d].value }

  // ---------------------------------------------------------------- candidate discovery

  predicate DeviceLeq(x: Device, y: Device) { IdLeq(x.id, y.id) }

  function TieDevices(devices: seq<Device>): seq<Device> {
    if devices == [] then []
    else (if devices[0].kind == TieSwitch then [devices[0]] else []) + TieDevices(devices[1..])
  }

  function Ties(c: Network): seq<Device> { Sort(TieDevices(c.devices), DeviceLeq) }

  /** The far ends of the edges at a device, in configuration order. */
  function FarEnds(edges: seq<Edge>, d: Id): seq<Id> {
    if edges == [] then []
    else
      var e := edges[0];
      (if d in {e.a, e.b} then [if e.a != d then e.a else e.b] else []) + FarEnds(edges[1..], d)
  }

  predicate OnFeeder(c: Network, section: Id, feeder: Id) {
    var s := SectionById(c, section);
    s.Some? && s.value.feederId == feeder
  }

  function SidesOn(c: Network, sides: seq<Id>, feeder: Id): seq<Id> {
    if sides == [] then []
    else (if OnFeeder(c, sides[0], feeder) then [sides[0]] else []) + SidesOn(c, sides[1..], feeder)
  }

  function FirstOutside(sides: seq<Id>, others: seq<Id>): Option<Id> {
    if sides == [] then None
    else if sides[0] !in others then Some(sides[0])
    else FirstOutside(sides[1..], others)
  }

  /** The feeder on the far side of a tie that has exactly one side on the faulted feeder. */
  function AlternateOf(c: Network, fault: Section, tie: Device): Option<Feeder> {
    var sides := FarEnds(c.edges, tie.id);
    var affected := SidesOn(c, sides, fault.feederId);
    if |affected| != 1 then None
    else
      match FirstOutside(sides, affected)
      case None => None
      case Some(side) =>
        match SectionById(c, side)
        case None => None
        case Some(s) => FeederById(c, s.feederId)
  }

  function ScenarioInputs(states: States, sources: Sources, fault: Id): Inputs {
    Inputs(states, sources, {fault}, Some(fault), map[])
  }

  /** The network with the tie and the alternate breaker closed and the alternate source available. */
  function StructuralInputs(a: AssessmentInputs, tie: Id, f: Feeder): Inputs {
    ScenarioInputs(StatesOf(a.points)[tie := Closed][f.breakerId := Closed],
                   a.sources[f.sourceId := SourceAvailability.Available], a.fault)
  }

  predicate EnergisedIn(t: TopologyResult, s: Id) { s in t.sections && t.sections[s].energised }
  predicate FedIn(t: TopologyResult, s: Id, f: Id) { s in t.sections && f in t.sections[s].feeders }

  /** Healthy de-energised sections of the faulted feeder that the alternate feeder could pick up. */
  function PickedUp(c: Network, a: AssessmentInputs, feeder: Id, structural: TopologyResult, alternate: Id): set<Id> {
    set s | s in c.sections && s.feederId == feeder && s.id != a.fault
            && !EnergisedIn(a.topology, s.id) && FedIn(structural, s.id, alternate) :: s.id
  }

  function PathEdges(t: TopologyResult, sections: set<Id>, feeder: Id): set<Id> {
    set s, p, e | s in sections && s in t.sections && p in t.sections[s].paths && p.feederId == feeder
      && e in p.edges :: e
  }

  function TryTie(l: Loaded, a: AssessmentInputs, fault: Section, tie: Device): Option<Candidate> {
    match AlternateOf(l.data, fault, tie)
    case None => None
    case Some(f) =>
      var structural := TopologyOf(l.data, StructuralInputs(a, tie.id, f));
      var sections := PickedUp(l.data, a, fault.feederId, structural, f.id);
      if sections == {} then None
      else Some(Candidate(
        CandidateKey(l.configurationId, a.fault, tie.id, f.id, sections),
        fault.feederId, f.id, f.sourceId, f.breakerId, tie.id, sections,
        PathEdges(structural, sections, f.id), LoadOf(l.data.sections, sections),
        CustomersOf(l.data.zones, sections * a.outage.deEnergised)))
  }

  function Discover(l: Loaded, a: AssessmentInputs, fault: Section, ties: seq<Device>): Option<Candidate> {
    if ties == [] then None
    else
      var k := TryTie(l, a, fault, ties[0]);
      if k.Some? then k else Discover(l, a, fault, ties[1..])
  }

  function CandidateOf(l: Loaded, a: AssessmentInputs): Option<Candidate> {
    match SectionById(l.data, a.fault)
    case None => None
    case Some(fault) => Discover(l, a, fault, Ties(l.data))
  }

  // ---------------------------------------------------------------- permissives

  function MonitoredIds(c: Network): set<Id> { set d | d in c.devices && d.monitored :: d.id }

  function RequiredPoints(c: Network, points: map<Id, Point>): map<Id, Point> {
    map d | d in points && d in MonitoredIds(c) :: points[d]
  }

  function TelemetryPermissive(c: Network, a: AssessmentInputs): Permissive {
    var required := RequiredPoints(c, a.points);
    if forall d | d in required :: Classify(required[d], a.time).overallValid then Pass else Insufficient
  }

  function IsolationPermissive(a: AssessmentInputs): Permissive {
    if a.topology.proof.Some? && a.topology.proof.value.isolated then Pass else Fail
  }

  /** Only the tie is closed; everything else stays as observed. */
  function ProposedInputs(a: AssessmentInputs, k: Candidate): Inputs {
    ScenarioInputs(StatesOf(a.points)[k.tie := Closed], a.sources, a.fault)
  }

  function AlternatePermissive(a: AssessmentInputs, k: Candidate, proposed: TopologyResult): Permissive {
    if && k.alternateSource in a.sources && a.sources[k.alternateSource] == SourceAvailability.Available
       && k.alternateBreaker in a.points && a.points[k.alternateBreaker].value == Closed
       && forall s | s in k.sections :: FedIn(proposed, s, k.alternateFeeder)
    then Pass else Fail
  }

  function RadialPermissive(proposed: TopologyResult): Permissive {
    if proposed.radiality == Radial then Pass else Fail
  }

  function CapacityOf(existing: nat, transferable: nat, capacity: nat): Calculation {
    Calculation(existing, transferable, existing + transferable, capacity, existing + transferable <= capacity)
  }

  function CalculationOf(c: Network, a: AssessmentInputs, k: Candidate): Option<Calculation> {
    var f := FeederById(c, k.alternateFeeder);
    if f.None? || k.alternateFeeder !in a.topology.loads then None
    else
      var load := a.topology.loads[k.alternateFeeder];
      if !load.complete || load.loadKw.None? then None
      else Some(CapacityOf(load.loadKw.value, k.transferableKw, f.value.capacityKw))
  }

  function CapacityPermissive(calculation: Option<Calculation>): Permissive {
    match calculation
    case None => Insufficient
    case Some(r) => if r.pass then Pass else Fail
  }

  function PermissivesOf(c: Network, a: AssessmentInputs, k: Candidate): Permissives {
    var proposed := TopologyOf(c, ProposedInputs(a, k));
    Permissives(IsolationPermissive(a), AlternatePermissive(a, k, proposed), RadialPermissive(proposed),
                TelemetryPermissive(c, a), CapacityPermissive(CalculationOf(c, a, k)))
  }

  function OutcomeOf(p: Permissives): Outcome {
    if p.telemetry == Insufficient || p.capacity == Insufficient then Blocked
    else if p.isolation == Fail || p.alternate == Fail || p.radial == Fail || p.capacity == Fail then Rejected
    else Permitted
  }

  function Assess(l: Loaded, a: AssessmentInputs): Assessment {
    var k := CandidateOf(l, a);
    var required := RequiredPoints(l.data, a.points);
    match k
    case None =>
      Assessment(a.id, a.sequence, a.runId, l.configurationId, a.revision, a.time,
                 None, required, a.sources, None, None, NoCandidate)
    case Some(candidate) =>
      var p := PermissivesOf(l.data, a, candidate);
      Assessment(a.id, a.sequence, a.runId, l.configurationId, a.revision, a.time,
                 k, required, a.sources, Some(p), CalculationOf(l.data, a, candidate), OutcomeOf(p))
  }
}
