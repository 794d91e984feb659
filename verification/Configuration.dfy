/** Network configuration records and the rules a loaded configuration has passed. */
module Configuration {
  import opened Ids

  datatype SwitchState = Open | Closed
  datatype SourceAvailability = Available | Unavailable
  datatype DeviceKind = FeederSourceBreaker | SectionalisingSwitch | TieSwitch

  datatype Source = Source(id: Id, normalAvailability: SourceAvailability)
  datatype Feeder = Feeder(
    id: Id, sourceId: Id, breakerId: Id, capacityKw: nat, normalLoadKw: nat,
    sectionIds: seq<Id>, switchIds: seq<Id>)
  datatype Section = Section(id: Id, feederId: Id, loadKw: nat)
  datatype Device = Device(id: Id, kind: DeviceKind, feederId: Option<Id>, normalState: SwitchState, monitored: bool)
  datatype Edge = Edge(id: Id, a: Id, b: Id)
  datatype ZoneMapping = ZoneMapping(sectionId: Id, zoneId: Id, customers: nat)

  datatype Network = Network(
    sources: seq<Source>, feeders: seq<Feeder>, sections: seq<Section>,
    devices: seq<Device>, edges: seq<Edge>, zones: seq<ZoneMapping>)

  function SourceIds(c: Network): set<Id> { set x | x in c.sources :: x.id }
  function FeederIds(c: Network): set<Id> { set x | x in c.feeders :: x.id }
  function SectionIds(c: Network): set<Id> { set x | x in c.sections :: x.id }
  function DeviceIds(c: Network): set<Id> { set x | x in c.devices :: x.id }
  function BreakerIds(c: Network): set<Id> { set x | x in c.feeders :: x.breakerId }
  function TerminalIds(c: Network): set<Id> { SourceIds(c) + SectionIds(c) }

  /** The first element that satisfies `p`, in list order. */
  function First<T>(s: seq<T>, p: T -> bool): (r: Option<T>)
    ensures r.Some? ==> r.value in s && p(r.value)
    ensures r.None? ==> forall x | x in s :: !p(x)
  {
    if s == [] then None else if p(s[0]) then Some(s[0]) else First(s[1..], p)
  }

  function SectionById(c: Network, id: Id): (r: Option<Section>)
    ensures r.Some? <==> id in SectionIds(c)
    ensures r.Some? ==> r.value in c.sections && r.value.id == id
  {
    First(c.sections, (x: Section) => x.id == id)
  }

  function FeederById(c: Network, id: Id): (r: Option<Feeder>)
    ensures r.Some? <==> id in FeederIds(c)
    ensures r.Some? ==> r.value in c.feeders && r.value.id == id
  {
    First(c.feeders, (x: Feeder) => x.id == id)
  }

  function DeviceById(c: Network, id: Id): (r: Option<Device>)
    ensures r.Some? <==> id in DeviceIds(c)
    ensures r.Some? ==> r.value in c.devices && r.value.id == id
  {
    First(c.devices, (x: Device) => x.id == id)
  }

  function SourceById(c: Network, id: Id): (r: Option<Source>)
    ensures r.Some? <==> id in SourceIds(c)
    ensures r.Some? ==> r.value in c.sources && r.value.id == id
  {
    First(c.sources, (x: Source) => x.id == id)
  }

  // ---------------------------------------------------------------- validation

  function EntityIds(c: Network): seq<Id> {
    seq(|c.sources|, i requires 0 <= i < |c.sources| => c.sources[i].id)
    + seq(|c.feeders|, i requires 0 <= i < |c.feeders| => c.feeders[i].id)
    + seq(|c.sections|, i requires 0 <= i < |c.sections| => c.sections[i].id)
    + seq(|c.devices|, i requires 0 <= i < |c.devices| => c.devices[i].id)
  }

  /** The device at one end of the edge. */
  function DeviceEnd(c: Network, e: Edge): Id { if e.a in DeviceIds(c) then e.a else e.b }
  function TerminalEnd(c: Network, e: Edge): Id { if e.a in DeviceIds(c) then e.b else e.a }

  function Incidence(edges: seq<Edge>, d: Id): nat {
    if edges == [] then 0
    else Incidence(edges[..|edges|-1], d) + (if d in {edges[|edges|-1].a, edges[|edges|-1].b} then 1 else 0)
  }

  predicate FeederConsistent(c: Network, f: Feeder) {
    && f.sourceId in SourceIds(c)
    && (exists d | d in c.devices :: d.id == f.breakerId && d.kind == FeederSourceBreaker && d.feederId == Some(f.id))
    && (set x | x in f.sectionIds) == (set s | s in c.sections && s.feederId == f.id :: s.id)
    && (set x | x in f.switchIds) == (set d | d in c.devices && d.feederId == Some(f.id)
                                      && d.kind == SectionalisingSwitch :: d.id)
  }

  /** One end is a switching device and the other a source or section. */
  predicate EdgeConsistent(c: Network, e: Edge) {
    && e.a != e.b
    && |{e.a, e.b} * DeviceIds(c)| == 1
    && |{e.a, e.b} * TerminalIds(c)| == 1
  }

  predicate ZonesConsistent(c: Network) {
    && (forall i, j | 0 <= i < j < |c.zones| :: c.zones[i].sectionId != c.zones[j].sectionId
                                                && c.zones[i].zoneId != c.zones[j].zoneId)
    && (set z | z in c.zones :: z.sectionId) == SectionIds(c)
    && (forall z | z in c.zones :: z.customers > 0)
  }

  /** The rules the configuration validator enforces before any service sees the record. */
  datatype Rule =
    | UniqueEntities | UniqueEdges | ConsistentFeeders | OwnedSections | OwnedDevices | KnownOwners
    | ConsistentEdges | TwoEdgesPerDevice | ConsistentZones

  predicate Satisfies(c: Network, rule: Rule) {
    match rule
    case UniqueEntities => Distinct(EntityIds(c))
    case UniqueEdges => forall i, j | 0 <= i < j < |c.edges| :: c.edges[i].id != c.edges[j].id
    case ConsistentFeeders => forall f | f in c.feeders :: FeederConsistent(c, f)
    case OwnedSections => forall s | s in c.sections :: s.feederId in FeederIds(c)
    case OwnedDevices => forall d | d in c.devices :: (d.kind == TieSwitch <==> d.feederId == None)
    case KnownOwners => forall d | d in c.devices :: d.feederId.Some? ==> d.feederId.value in FeederIds(c)
    case ConsistentEdges => forall e | e in c.edges :: EdgeConsistent(c, e)
    case TwoEdgesPerDevice => forall d | d in c.devices :: Incidence(c.edges, d.id) == 2
    case ConsistentZones => ZonesConsistent(c)
  }

  predicate Validated(c: Network) { forall rule :: Satisfies(c, rule) }

  /** An edge between a source and a feeder breaker; distribution paths never cross it. */
  predicate SourceSide(c: Network, e: Edge) {
    {e.a, e.b} * SourceIds(c) != {} && {e.a, e.b} * BreakerIds(c) != {}
  }

  function SourceEdge(c: Network, f: Feeder): (r: Option<Edge>)
    ensures r.Some? ==> r.value in c.edges && SourceSide(c, r.value) && f.breakerId in {r.value.a, r.value.b}
                        && f.sourceId in {r.value.a, r.value.b}
    ensures r.None? ==> forall e | e in c.edges ::
              !(SourceSide(c, e) && f.breakerId in {e.a, e.b} && f.sourceId in {e.a, e.b})
  {
    First(c.edges, (e: Edge) => SourceSide(c, e) && f.breakerId in {e.a, e.b} && f.sourceId in {e.a, e.b})
  }

  /** What the services assume beyond validation: every feeder breaker meets its own source, only
      feeder breakers meet sources, and capacities are positive. */
  datatype Assumption = SourcesMet | OnlyBreakersMeetSources | PositiveCapacities

  predicate Assumed(c: Network, assumption: Assumption) {
    match assumption
    case SourcesMet => forall f | f in c.feeders :: SourceEdge(c, f).Some?
    case OnlyBreakersMeetSources => forall e | e in c.edges :: {e.a, e.b} * SourceIds(c) != {}
                                                               ==> {e.a, e.b} * BreakerIds(c) != {}
    case PositiveCapacities => forall f | f in c.feeders :: f.capacityKw > 0
  }

  predicate WellFormed(c: Network) { Validated(c) && forall assumption :: Assumed(c, assumption) }

  // ---------------------------------------------------------------- consequences of validation

  lemma WellFormedFacts(c: Network)
    requires WellFormed(c)
    ensures Validated(c)
    ensures forall f | f in c.feeders :: SourceEdge(c, f).Some? && f.capacityKw > 0
  {
    assert Assumed(c, SourcesMet) && Assumed(c, PositiveCapacities);
  }

  lemma EntityIdAt(c: Network, k: nat)
    ensures |EntityIds(c)| == |c.sources| + |c.feeders| + |c.sections| + |c.devices|
    ensures k < |c.sources| ==> EntityIds(c)[k] == c.sources[k].id
    ensures k < |c.feeders| ==> EntityIds(c)[|c.sources| + k] == c.feeders[k].id
    ensures k < |c.sections| ==> EntityIds(c)[|c.sources| + |c.feeders| + k] == c.sections[k].id
    ensures k < |c.devices| ==> EntityIds(c)[|c.sources| + |c.feeders| + |c.sections| + k] == c.devices[k].id
  {
  }

  lemma IdsAreDisjoint(c: Network)
    requires Validated(c)
    ensures DeviceIds(c) !! TerminalIds(c) && SourceIds(c) !! SectionIds(c)
  {
    assert Satisfies(c, UniqueEntities);
    forall x, y | x in c.devices && y in c.sections ensures x.id != y.id {
      var i :| 0 <= i < |c.devices| && c.devices[i] == x;
      var j :| 0 <= j < |c.sections| && c.sections[j] == y;
      EntityIdAt(c, i); EntityIdAt(c, j);
    }
    forall x, y | x in c.devices && y in c.sources ensures x.id != y.id {
      var i :| 0 <= i < |c.devices| && c.devices[i] == x;
      var j :| 0 <= j < |c.sources| && c.sources[j] == y;
      EntityIdAt(c, i); EntityIdAt(c, j);
    }
    forall x, y | x in c.sources && y in c.sections ensures x.id != y.id {
      var i :| 0 <= i < |c.sources| && c.sources[i] == x;
      var j :| 0 <= j < |c.sections| && c.sections[j] == y;
      EntityIdAt(c, i); EntityIdAt(c, j);
    }
  }

  lemma SectionsAreUnique(c: Network, i: nat, j: nat)
    requires Validated(c) && i < |c.sections| && j < |c.sections| && c.sections[i].id == c.sections[j].id
    ensures i == j
  {
    assert Satisfies(c, UniqueEntities);
    EntityIdAt(c, i); EntityIdAt(c, j);
  }

  lemma FeederAtIsUnique(c: Network, i: nat, j: nat)
    requires Validated(c) && i < |c.feeders| && j < |c.feeders| && c.feeders[i].id == c.feeders[j].id
    ensures i == j
  {
    assert Satisfies(c, UniqueEntities);
    EntityIdAt(c, i); EntityIdAt(c, j);
  }

  lemma FeedersAreUnique(c: Network, f: Feeder, g: Feeder)
    requires Validated(c) && f in c.feeders && g in c.feeders && f.id == g.id
    ensures f == g
  {
    assert Satisfies(c, UniqueEntities);
    var i :| 0 <= i < |c.feeders| && c.feeders[i] == f;
    var j :| 0 <= j < |c.feeders| && c.feeders[j] == g;
    EntityIdAt(c, i); EntityIdAt(c, j);
  }

  lemma DevicesAreUnique(c: Network, x: Device, y: Device)
    requires Validated(c) && x in c.devices && y in c.devices && x.id == y.id
    ensures x == y
  {
    assert Satisfies(c, UniqueEntities);
    var i :| 0 <= i < |c.devices| && c.devices[i] == x;
    var j :| 0 <= j < |c.devices| && c.devices[j] == y;
    EntityIdAt(c, i); EntityIdAt(c, j);
  }

  lemma BreakersAreUnique(c: Network, f: Feeder, g: Feeder)
    requires Validated(c) && f in c.feeders && g in c.feeders && f.breakerId == g.breakerId
    ensures f == g
  {
    assert Satisfies(c, ConsistentFeeders);
    assert FeederConsistent(c, f) && FeederConsistent(c, g);
    var x :| x in c.devices && x.id == f.breakerId && x.feederId == Some(f.id);
    var y :| y in c.devices && y.id == g.breakerId && y.feederId == Some(g.id);
    DevicesAreUnique(c, x, y);
    FeedersAreUnique(c, f, g);
  }

  lemma BreakersAreDevices(c: Network)
    requires Validated(c)
    ensures BreakerIds(c) <= DeviceIds(c)
    ensures forall d | d in c.devices && d.id in BreakerIds(c) :: d.kind == FeederSourceBreaker
  {
    assert Satisfies(c, ConsistentFeeders);
    forall f | f in c.feeders ensures f.breakerId in DeviceIds(c) {
      assert FeederConsistent(c, f);
    }
    forall d | d in c.devices && d.id in BreakerIds(c) ensures d.kind == FeederSourceBreaker {
      var f :| f in c.feeders && f.breakerId == d.id;
      assert FeederConsistent(c, f);
      var x :| x in c.devices && x.id == f.breakerId && x.kind == FeederSourceBreaker;
      DevicesAreUnique(c, x, d);
    }
  }

  lemma EdgeEnds(c: Network, e: Edge)
    requires Validated(c) && e in c.edges
    ensures DeviceEnd(c, e) in DeviceIds(c) && TerminalEnd(c, e) in TerminalIds(c)
    ensures {e.a, e.b} == {DeviceEnd(c, e), TerminalEnd(c, e)}
    ensures forall d | d in DeviceIds(c) :: d in {e.a, e.b} <==> d == DeviceEnd(c, e)
    ensures forall t | t in TerminalIds(c) :: t in {e.a, e.b} <==> t == TerminalEnd(c, e)
  {
    assert Satisfies(c, ConsistentEdges);
    IdsAreDisjoint(c);
    assert EdgeConsistent(c, e);
    var D, T := {e.a, e.b} * DeviceIds(c), {e.a, e.b} * TerminalIds(c);
    assert e.a !in DeviceIds(c) && e.b !in DeviceIds(c) ==> D == {};
    assert e.a in DeviceIds(c) && e.b in DeviceIds(c) ==> T == {};
    assert e.a !in TerminalIds(c) && e.b !in TerminalIds(c) ==> T == {};
  }

  /** On a well-formed network every edge that is not on the source side ends on a section. */
  lemma DistributionEdgeEnds(c: Network, e: Edge)
    requires WellFormed(c) && e in c.edges && !SourceSide(c, e)
    ensures TerminalEnd(c, e) in SectionIds(c)
  {
    assert Assumed(c, OnlyBreakersMeetSources);
    EdgeEnds(c, e);
    assert {e.a, e.b} * SourceIds(c) == {};
    assert TerminalEnd(c, e) in SourceIds(c) ==> TerminalEnd(c, e) in {e.a, e.b} * SourceIds(c);
  }

  // ---------------------------------------------------------------- a device has at most two edges

  lemma {:induction false} IncidencePositive(edges: seq<Edge>, d: Id, i: nat)
    requires i < |edges| && d in {edges[i].a, edges[i].b}
    ensures Incidence(edges, d) > 0
  {
    if i < |edges| - 1 {
      assert edges[..|edges|-1][i] == edges[i];
      IncidencePositive(edges[..|edges|-1], d, i);
    }
  }

  lemma {:induction false} IncidenceThree(edges: seq<Edge>, d: Id, i: nat, j: nat, k: nat)
    requires i < j < k < |edges|
    requires d in {edges[i].a, edges[i].b} && d in {edges[j].a, edges[j].b} && d in {edges[k].a, edges[k].b}
    ensures Incidence(edges, d) >= 3
  {
    var t := edges[..|edges|-1];
    if k < |edges| - 1 {
      assert t[i] == edges[i] && t[j] == edges[j] && t[k] == edges[k];
      IncidenceThree(t, d, i, j, k);
    } else {
      assert t[i] == edges[i] && t[j] == edges[j];
      IncidenceTwo(t, d, i, j);
    }
  }

  lemma {:induction false} IncidenceTwo(edges: seq<Edge>, d: Id, i: nat, j: nat)
    requires i < j < |edges| && d in {edges[i].a, edges[i].b} && d in {edges[j].a, edges[j].b}
    ensures Incidence(edges, d) >= 2
  {
    var t := edges[..|edges|-1];
    if j < |edges| - 1 {
      assert t[i] == edges[i] && t[j] == edges[j];
      IncidenceTwo(t, d, i, j);
    } else {
      assert t[i] == edges[i];
      IncidencePositive(t, d, i);
    }
  }

  lemma {:induction false} IncidenceFind(edges: seq<Edge>, d: Id) returns (i: nat)
    requires Incidence(edges, d) > 0
    ensures i < |edges| && d in {edges[i].a, edges[i].b}
    ensures Incidence(edges[..i], d) == Incidence(edges, d) - 1
  {
    var n := |edges| - 1;
    if d in {edges[n].a, edges[n].b} {
      i := n;
    } else {
      i := IncidenceFind(edges[..n], d);
      assert edges[..n][..i] == edges[..i];
    }
  }

  /** The two configured edges of a device; every edge at the device is one of them. */
  lemma DeviceEdges(c: Network, d: Id) returns (i: nat, j: nat)
    requires Validated(c) && d in DeviceIds(c)
    ensures i < j < |c.edges| && DeviceEnd(c, c.edges[i]) == d && DeviceEnd(c, c.edges[j]) == d
    ensures forall k | 0 <= k < |c.edges| && DeviceEnd(c, c.edges[k]) == d :: k == i || k == j
  {
    assert Satisfies(c, TwoEdgesPerDevice);
    j := IncidenceFind(c.edges, d);
    i := IncidenceFind(c.edges[..j], d);
    EdgeEnds(c, c.edges[i]);
    EdgeEnds(c, c.edges[j]);
    forall k | 0 <= k < |c.edges| && DeviceEnd(c, c.edges[k]) == d ensures k == i || k == j {
      EdgeEnds(c, c.edges[k]);
      if k < i { IncidenceThree(c.edges, d, k, i, j); }
      else if i < k < j { IncidenceThree(c.edges, d, i, k, j); }
      else if j < k { IncidenceThree(c.edges, d, i, j, k); }
    }
  }
}
