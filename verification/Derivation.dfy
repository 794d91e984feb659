/** Topology inputs derived from current telemetry at a scenario time. */
module Derivation {
  import opened Ids
  import opened Configuration
  import opened Topology
  import opened Telemetry
  import opened Restoration
  import opened Energisation
  import opened TopologyFacts

  function ObservationAt(p: Point, time: int): Observation {
    Observation(Some(p.value), Some(p.quality), Some(FreshnessAt(p, time)))
  }

  function ObservationsAt(points: map<Id, Point>, time: int): map<Id, Observation> {
    map d | d in points :: ObservationAt(points[d], time)
  }

  function InputsAt(points: map<Id, Point>, sources: Sources, fault: Option<Id>, time: int): Inputs {
    Inputs(StatesOf(points), sources, if fault.Some? then {fault.value} else {}, fault, ObservationsAt(points, time))
  }

  function TopologyAt(c: Network, points: map<Id, Point>, sources: Sources, fault: Option<Id>,
      time: int): TopologyResult {
    TopologyOf(c, InputsAt(points, sources, fault, time))
  }

  function LiveNow(c: Network, points: map<Id, Point>, sources: Sources): set<Id> {
    Live(c, StatesOf(points), sources)
  }

  /** The trustworthy-evidence status of a device at a time. */
  function StatusAt(points: map<Id, Point>, d: Id, time: int): ProofStatus {
    StatusOf(ObservationOf(ObservationsAt(points, time), d))
  }

  lemma StatusMeans(points: map<Id, Point>, d: Id, time: int)
    ensures StatusAt(points, d, time) == ProvenOpen <==>
            d in points && points[d].value == Open && Classify(points[d], time).overallValid
    ensures StatusAt(points, d, time) == ProvenClosed <==>
            d in points && points[d].value == Closed && Classify(points[d], time).overallValid
  {
  }

  predicate ProvenOpenAt(c: Network, fault: Id, points: map<Id, Point>, time: int) {
    BoundarySet(c, fault) != {} && forall d | d in BoundarySet(c, fault) :: StatusAt(points, d, time) == ProvenOpen
  }

  predicate IsolatedIn(t: TopologyResult) { t.proof.Some? && t.proof.value.isolated }

  /** Isolation is proven exactly when every boundary device is proven open: dead follows from open. */
  lemma IsolatedMeans(c: Network, points: map<Id, Point>, sources: Sources, fault: Id, time: int)
    requires WellFormed(c) && fault in SectionIds(c)
    ensures IsolatedIn(TopologyAt(c, points, sources, Some(fault), time)) <==> ProvenOpenAt(c, fault, points, time)
    ensures ProvenOpenAt(c, fault, points, time) ==> BoundariesOpen(c, fault, StatesOf(points))
    ensures TopologyAt(c, points, sources, Some(fault), time).proof.Some?
  {
    hide WellFormed, Live, SectionStates, RadialityOf, ImproperComponents, DistributionGraph, ActiveFeeders;
    hide AvailableFeeders, FeederLoadOf, ProofOf, BoundarySet, StatusOf, ObservationOf, ObservationsAt;
    var i := InputsAt(points, sources, Some(fault), time);
    ProofMeans(c, i, fault);
    if ProvenOpenAt(c, fault, points, time) {
      forall d | d in BoundarySet(c, fault) ensures !IsClosed(StatesOf(points), d) {
        StatusMeans(points, d, time);
      }
      OpenBoundariesIsolate(c, fault, StatesOf(points), sources);
    }
  }

  /** Evidence status cannot improve by waiting: a proven status later was proven before. */
  lemma StatusEarlier(points: map<Id, Point>, d: Id, earlier: int, later: int)
    requires d in points ==> points[d].updated <= earlier
    requires earlier <= later && StatusAt(points, d, later) != Unproven
    ensures StatusAt(points, d, earlier) == StatusAt(points, d, later)
  {
    hide Classify, StatusAt;
    StatusMeans(points, d, earlier);
    StatusMeans(points, d, later);
    if d in points && Classify(points[d], later).overallValid { ValidEarlier(points[d], earlier, later); }
  }

  ghost predicate NoFutureEvidence(points: map<Id, Point>, time: int) {
    forall d | d in points :: points[d].updated <= time
  }

  lemma ProvenOpenEarlier(c: Network, fault: Id, points: map<Id, Point>, earlier: int, later: int)
    requires NoFutureEvidence(points, earlier) && earlier <= later && ProvenOpenAt(c, fault, points, later)
    ensures ProvenOpenAt(c, fault, points, earlier)
  {
    hide BoundarySet, StatusAt;
    forall d | d in BoundarySet(c, fault) ensures StatusAt(points, d, earlier) == ProvenOpen {
      StatusEarlier(points, d, earlier, later);
    }
  }

  /** Sections and loads depend on switch states and sources only, not on evidence age. */
  lemma SectionsIgnoreEvidence(c: Network, i: Inputs, j: Inputs)
    requires i.states == j.states && i.sources == j.sources && i.faulted == j.faulted
    ensures TopologyOf(c, i).sections == TopologyOf(c, j).sections
    ensures TopologyOf(c, i).loads == TopologyOf(c, j).loads
    ensures TopologyOf(c, i).radiality == TopologyOf(c, j).radiality
  {
    hide SectionPaths, RadialityOf, ImproperComponents, DistributionGraph, ActiveFeeders, AvailableFeeders;
    hide FeederLoadOf, ProofOf;
    forall s | s in SectionIds(c) ensures SectionStateOf(c, i, s) == SectionStateOf(c, j, s) {
    }
    assert SectionStates(c, i) == SectionStates(c, j);
  }
}
