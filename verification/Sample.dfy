/** A small network on which the formal fault can be isolated by its two switches and restored over a
    tie. It has two feeders on one substation. FAULTED has the sections NEAR, MIDDLE and FAR, kept apart
    by the two formal switches. OTHER has BACKUP and, beyond FAR, STRAY. A tie joins FAR to BACKUP. */
module Sample {
  import opened Ids
  import opened Configuration
  import opened Topology
  import opened Restoration
  import opened Scenario
  import opened Handlers
  import opened RunInvariant
  import opened RunSteps
  import opened RunSafety
  import opened TopologyFacts
  import opened Derivation
  import opened Outage
  import opened Store
  import opened StoreFacts
  import opened Histories

  function Name(k: nat): Id
    requires k < 60
  {
    match k
    case 4 => Id("SEC-A2")
    case 10 => Id("SW-A12")
    case 11 => Id("SW-A23")
    case _ => Id([(k + 48) as char])
  }

  function Rank(id: Id): int {
    if id == Id("SEC-A2") then 4
    else if id == Id("SW-A12") then 10
    else if id == Id("SW-A23") then 11
    else if |id.text| == 1 then id.text[0] as int - 48
    else -1
  }

  lemma NamesDiffer()
    ensures forall k: nat | k < 60 :: Rank(Name(k)) == k
  {
    assert "SEC-A2"[1] != "SW-A12"[1] && "SEC-A2"[1] != "SW-A23"[1] && "SW-A12"[4] != "SW-A23"[4];
  }

  const SUBSTATION := Name(0)
  const FAULTED := Name(1)
  const OTHER := Name(2)
  const NEAR := Name(3)
  const MIDDLE := Name(4)
  const FAR := Name(5)
  const BACKUP := Name(6)
  const STRAY := Name(7)
  const FAULTED_BREAKER := Name(8)
  const OTHER_BREAKER := Name(9)
  const FIRST := Name(10)
  const SECOND := Name(11)
  const TIE := Name(12)
  const LINK := Name(13)

  function SectionAt(k: nat): Section {
    match k
    case 0 => Section(NEAR, FAULTED, 1)
    case 1 => Section(MIDDLE, FAULTED, 1)
    case 2 => Section(FAR, FAULTED, 1)
    case 3 => Section(BACKUP, OTHER, 1)
    case _ => Section(STRAY, OTHER, 1)
  }

  function DeviceAt(breaker: SwitchState, k: nat): Device {
    match k
    case 0 => Device(FAULTED_BREAKER, FeederSourceBreaker, Some(FAULTED), breaker, true)
    case 1 => Device(OTHER_BREAKER, FeederSourceBreaker, Some(OTHER), Closed, true)
    case 2 => Device(FIRST, SectionalisingSwitch, Some(FAULTED), Closed, true)
    case 3 => Device(SECOND, SectionalisingSwitch, Some(FAULTED), Closed, true)
    case 4 => Device(TIE, TieSwitch, None, Open, true)
    case _ => Device(LINK, SectionalisingSwitch, Some(OTHER), Closed, true)
  }

  /** The two ends of each edge; those of the tie come first. */
  function DeviceOf(k: nat): Id {
    match k
    case 0 => TIE case 1 => TIE
    case 2 => FAULTED_BREAKER case 3 => FAULTED_BREAKER
    case 4 => FIRST case 5 => FIRST
    case 6 => SECOND case 7 => SECOND
    case 8 => OTHER_BREAKER case 9 => OTHER_BREAKER
    case _ => LINK
  }

  function TerminalOf(k: nat): Id {
    match k
    case 0 => FAR case 1 => BACKUP
    case 2 => SUBSTATION case 3 => NEAR
    case 4 => NEAR case 5 => MIDDLE
    case 6 => MIDDLE case 7 => FAR
    case 8 => SUBSTATION case 9 => BACKUP
    case 10 => FAR case _ => STRAY
  }

  function EdgeAt(k: nat): Edge
    requires k < 12
  {
    Edge(Name(20 + k), DeviceOf(k), TerminalOf(k))
  }

  function Edges(): seq<Edge> { seq(12, k requires 0 <= k < 12 => EdgeAt(k)) }

  /** The network, given the normal state of the faulted feeder's breaker. */
  function Grid(breaker: SwitchState): Network {
    Network(
      [Source(SUBSTATION, SourceAvailability.Available)],
      [Feeder(FAULTED, SUBSTATION, FAULTED_BREAKER, 3, 3, [NEAR, MIDDLE, FAR], [FIRST, SECOND]),
       Feeder(OTHER, SUBSTATION, OTHER_BREAKER, 2, 2, [BACKUP, STRAY], [LINK])],
      seq(5, k requires 0 <= k < 5 => SectionAt(k)),
      seq(6, k requires 0 <= k < 6 => DeviceAt(breaker, k)),
      Edges(),
      seq(5, k requires 0 <= k < 5 => ZoneMapping(SectionAt(k).id, Name(40 + k), 1)))
  }

  // ---------------------------------------------------------------- the network is well formed

  lemma GridFeederIds(b: SwitchState)
    ensures SourceIds(Grid(b)) == {SUBSTATION} && FeederIds(Grid(b)) == {FAULTED, OTHER}
    ensures BreakerIds(Grid(b)) == {FAULTED_BREAKER, OTHER_BREAKER}
  {
    hide Name;
    var c := Grid(b);
    assert c.sources[0] in c.sources && c.feeders[0] in c.feeders && c.feeders[1] in c.feeders;
  }

  lemma GridSectionIds(b: SwitchState)
    ensures SectionIds(Grid(b)) == {NEAR, MIDDLE, FAR, BACKUP, STRAY}
  {
    hide Name;
    var c := Grid(b);
    assert forall k | 0 <= k < 5 :: c.sections[k] == SectionAt(k) && c.sections[k] in c.sections;
    assert SectionAt(0) in c.sections && SectionAt(1) in c.sections && SectionAt(2) in c.sections;
    assert SectionAt(3) in c.sections && SectionAt(4) in c.sections;
  }

  lemma GridDeviceIds(b: SwitchState)
    ensures DeviceIds(Grid(b)) == {FAULTED_BREAKER, OTHER_BREAKER, FIRST, SECOND, TIE, LINK}
  {
    hide Name;
    var c := Grid(b);
    assert forall k | 0 <= k < 6 :: c.devices[k] == DeviceAt(b, k) && c.devices[k] in c.devices;
    assert DeviceAt(b, 0) in c.devices && DeviceAt(b, 1) in c.devices && DeviceAt(b, 2) in c.devices;
    assert DeviceAt(b, 3) in c.devices && DeviceAt(b, 4) in c.devices && DeviceAt(b, 5) in c.devices;
  }

  lemma GridSets(b: SwitchState)
    ensures SourceIds(Grid(b)) == {SUBSTATION} && FeederIds(Grid(b)) == {FAULTED, OTHER}
    ensures SectionIds(Grid(b)) == {NEAR, MIDDLE, FAR, BACKUP, STRAY}
    ensures DeviceIds(Grid(b)) == {FAULTED_BREAKER, OTHER_BREAKER, FIRST, SECOND, TIE, LINK}
    ensures BreakerIds(Grid(b)) == {FAULTED_BREAKER, OTHER_BREAKER}
    ensures TerminalIds(Grid(b)) == {SUBSTATION, NEAR, MIDDLE, FAR, BACKUP, STRAY}
  {
    hide Name, Grid, SourceIds, FeederIds, SectionIds, DeviceIds, BreakerIds;
    GridFeederIds(b);
    GridSectionIds(b);
    GridDeviceIds(b);
  }

  /** The identifiers of sections, devices and terminals apart from each other. */
  lemma GridEnds(b: SwitchState, k: nat)
    requires k < 12
    ensures DeviceOf(k) in DeviceIds(Grid(b)) && TerminalOf(k) in TerminalIds(Grid(b))
    ensures TerminalOf(k) !in DeviceIds(Grid(b)) && DeviceOf(k) !in TerminalIds(Grid(b)) && DeviceOf(k) != TerminalOf(k)
  {
    hide Name, Rank, Grid;
    NamesDiffer();
    GridSets(b);
  }

  lemma GridEntityIds(b: SwitchState)
    ensures Satisfies(Grid(b), UniqueEntities)
  {
    hide Name, Rank;
    NamesDiffer();
    var ids := EntityIds(Grid(b));
    assert ids == seq(14, k requires 0 <= k < 14 => Name(k));
    forall i, j | 0 <= i < j < 14 ensures ids[i] != ids[j] { assert Rank(ids[i]) == i && Rank(ids[j]) == j; }
  }

  lemma GridEdges(b: SwitchState)
    ensures Satisfies(Grid(b), ConsistentEdges) && Satisfies(Grid(b), UniqueEdges)
  {
    hide Name, Rank, DeviceIds, TerminalIds, DeviceOf, TerminalOf;
    var c := Grid(b);
    NamesDiffer();
    forall e | e in c.edges ensures EdgeConsistent(c, e) {
      var k :| 0 <= k < 12 && e == EdgeAt(k);
      GridEnds(b, k);
      assert {e.a, e.b} * DeviceIds(c) == {DeviceOf(k)} && {e.a, e.b} * TerminalIds(c) == {TerminalOf(k)};
    }
    forall i, j | 0 <= i < j < 12 ensures c.edges[i].id != c.edges[j].id {
      assert Rank(EdgeAt(i).id) == 20 + i && Rank(EdgeAt(j).id) == 20 + j;
    }
  }

  function Touches(k: nat, d: Id): nat { if d == DeviceOf(k) then 1 else 0 }

  function TouchesUpTo(n: nat, d: Id): nat { if n == 0 then 0 else TouchesUpTo(n - 1, d) + Touches(n - 1, d) }

  lemma {:induction false} IncidenceUpTo(b: SwitchState, n: nat, d: Id)
    requires n <= 12 && d in DeviceIds(Grid(b))
    ensures Incidence(Edges()[..n], d) == TouchesUpTo(n, d)
  {
    hide DeviceOf, TerminalOf, Name, DeviceIds, TerminalIds;
    if n > 0 {
      IncidenceUpTo(b, n - 1, d);
      GridEnds(b, n - 1);
      assert Edges()[..n][..n - 1] == Edges()[..n - 1] && Edges()[..n][n - 1] == EdgeAt(n - 1);
    }
  }

  lemma {:induction false} TouchesAt(n: nat, d: Id, i: nat, j: nat)
    requires n <= 12 && i < j < 12 && forall k: nat | k < 12 :: DeviceOf(k) == d <==> k == i || k == j
    ensures TouchesUpTo(n, d) == (if i < n then 1 else 0) + (if j < n then 1 else 0)
  {
    hide DeviceOf;
    if n > 0 { TouchesAt(n - 1, d, i, j); }
  }

  lemma TouchesTwice(b: SwitchState, d: Id)
    requires d in DeviceIds(Grid(b))
    ensures TouchesUpTo(12, d) == 2
  {
    hide Name, Rank, Grid, TouchesUpTo;
    NamesDiffer();
    GridSets(b);
    var i := if d == TIE then 0 else if d == FAULTED_BREAKER then 2 else if d == FIRST then 4
             else if d == SECOND then 6 else if d == OTHER_BREAKER then 8 else 10;
    TouchesAt(12, d, i, i + 1);
  }

  lemma GridIncidence(b: SwitchState)
    ensures Satisfies(Grid(b), TwoEdgesPerDevice)
  {
    hide Name, Rank, Incidence, TouchesUpTo;
    forall d | d in Grid(b).devices ensures Incidence(Grid(b).edges, d.id) == 2 {
      assert d.id in DeviceIds(Grid(b));
      IncidenceUpTo(b, 12, d.id);
      TouchesTwice(b, d.id);
      assert Edges()[..12] == Edges();
    }
  }

  lemma GridFeederSections(b: SwitchState)
    ensures (set s | s in Grid(b).sections && s.feederId == FAULTED :: s.id) == {NEAR, MIDDLE, FAR}
    ensures (set s | s in Grid(b).sections && s.feederId == OTHER :: s.id) == {BACKUP, STRAY}
  {
    hide Name, Rank;
    var c := Grid(b);
    NamesDiffer();
    assert SectionAt(0) == c.sections[0] && SectionAt(1) == c.sections[1] && SectionAt(2) == c.sections[2];
    assert SectionAt(3) == c.sections[3] && SectionAt(4) == c.sections[4];
  }

  lemma GridFeederSwitches(b: SwitchState)
    ensures (set d | d in Grid(b).devices && d.feederId == Some(FAULTED) && d.kind == SectionalisingSwitch :: d.id) ==
      {FIRST, SECOND}
    ensures (set d | d in Grid(b).devices && d.feederId == Some(OTHER) && d.kind == SectionalisingSwitch :: d.id) ==
      {LINK}
  {
    hide Name, Rank;
    var c := Grid(b);
    NamesDiffer();
    assert DeviceAt(b, 2) == c.devices[2] && DeviceAt(b, 3) == c.devices[3] && DeviceAt(b, 5) == c.devices[5];
  }

  lemma FaultedFeeder(b: SwitchState)
    ensures FeederConsistent(Grid(b), Grid(b).feeders[0])
  {
    hide Name, Rank, SourceIds;
    var c := Grid(b);
    GridFeederIds(b);
    GridFeederSections(b);
    GridFeederSwitches(b);
    assert DeviceAt(b, 0) == c.devices[0];
    assert (set x | x in c.feeders[0].sectionIds) == {NEAR, MIDDLE, FAR};
    assert (set x | x in c.feeders[0].switchIds) == {FIRST, SECOND};
  }

  lemma OtherFeeder(b: SwitchState)
    ensures FeederConsistent(Grid(b), Grid(b).feeders[1])
  {
    hide Name, Rank, SourceIds;
    var c := Grid(b);
    GridFeederIds(b);
    GridFeederSections(b);
    GridFeederSwitches(b);
    assert DeviceAt(b, 1) == c.devices[1];
    assert (set x | x in c.feeders[1].sectionIds) == {BACKUP, STRAY};
    assert (set x | x in c.feeders[1].switchIds) == {LINK};
  }

  lemma GridFeeders(b: SwitchState)
    ensures Satisfies(Grid(b), ConsistentFeeders)
  {
    hide FeederConsistent;
    FaultedFeeder(b);
    OtherFeeder(b);
  }

  /** Only the two breakers' first edges meet the substation. */
  lemma GridSourceSide(b: SwitchState, k: nat)
    requires k < 12
    ensures {DeviceOf(k), TerminalOf(k)} * SourceIds(Grid(b)) != {} <==> k == 2 || k == 8
    ensures k == 2 || k == 8 ==> {DeviceOf(k), TerminalOf(k)} * BreakerIds(Grid(b)) == {DeviceOf(k)}
    ensures SourceSide(Grid(b), EdgeAt(k)) <==> k == 2 || k == 8
  {
    hide Name, Rank, Grid;
    NamesDiffer();
    GridSets(b);
    assert SUBSTATION in {DeviceOf(k), TerminalOf(k)} * SourceIds(Grid(b)) <==> k == 2 || k == 8;
    assert k == 2 || k == 8 ==> DeviceOf(k) in {DeviceOf(k), TerminalOf(k)} * BreakerIds(Grid(b));
  }

  lemma GridAssumptions(b: SwitchState)
    ensures Assumed(Grid(b), SourcesMet) && Assumed(Grid(b), OnlyBreakersMeetSources)
            && Assumed(Grid(b), PositiveCapacities)
  {
    hide Name, Rank, SourceSide, SourceIds, BreakerIds;
    var c := Grid(b);
    forall e | e in c.edges && {e.a, e.b} * SourceIds(c) != {} ensures {e.a, e.b} * BreakerIds(c) != {} {
      var k :| 0 <= k < 12 && e == EdgeAt(k);
      GridSourceSide(b, k);
    }
    GridSourceSide(b, 2);
    GridSourceSide(b, 8);
    assert c.edges[2] == EdgeAt(2) && c.edges[8] == EdgeAt(8) && EdgeAt(2) in c.edges && EdgeAt(8) in c.edges;
  }

  lemma GridZoneAt(b: SwitchState, k: nat)
    requires k < 5
    ensures |Grid(b).zones| == 5 && Grid(b).zones[k] == ZoneMapping(SectionAt(k).id, Name(40 + k), 1)
    ensures Grid(b).zones[k] in Grid(b).zones
    ensures Rank(SectionAt(k).id) == 3 + k && Rank(Name(40 + k)) == 40 + k
  {
    hide Name, Rank;
    NamesDiffer();
  }

  lemma GridZones(b: SwitchState)
    ensures Satisfies(Grid(b), ConsistentZones)
  {
    hide Name, Rank, Grid, SectionIds, SectionAt;
    var c := Grid(b);
    GridSets(b);
    GridZoneAt(b, 0); GridZoneAt(b, 1); GridZoneAt(b, 2); GridZoneAt(b, 3); GridZoneAt(b, 4);
    forall i, j | 0 <= i < j < 5 ensures c.zones[i].sectionId != c.zones[j].sectionId
      && c.zones[i].zoneId != c.zones[j].zoneId {
      GridZoneAt(b, i);
      GridZoneAt(b, j);
    }
    SectionNames();
    var ids := set z | z in c.zones :: z.sectionId;
    forall x | x in ids ensures x in {NEAR, MIDDLE, FAR, BACKUP, STRAY} {
      var z :| z in c.zones && z.sectionId == x;
      var k :| 0 <= k < 5 && c.zones[k] == z;
      GridZoneAt(b, k);
    }
    assert ids == {NEAR, MIDDLE, FAR, BACKUP, STRAY};
    forall z | z in c.zones ensures z.customers > 0 {
      var k :| 0 <= k < 5 && c.zones[k] == z;
      GridZoneAt(b, k);
    }
  }

  lemma SectionNames()
    ensures SectionAt(0).id == NEAR && SectionAt(1).id == MIDDLE && SectionAt(2).id == FAR
    ensures SectionAt(3).id == BACKUP && SectionAt(4).id == STRAY
    ensures forall k: nat | k < 5 :: SectionAt(k).id in {NEAR, MIDDLE, FAR, BACKUP, STRAY}
  {
  }

  lemma GridSectionOwners(b: SwitchState)
    ensures Satisfies(Grid(b), OwnedSections)
  {
    hide Name, FeederIds;
    GridFeederIds(b);
    forall s | s in Grid(b).sections ensures s.feederId in FeederIds(Grid(b)) {
      var k :| 0 <= k < 5 && s == SectionAt(k);
    }
  }

  lemma DeviceOwner(breaker: SwitchState, k: nat)
    ensures var d := DeviceAt(breaker, k); d.kind == TieSwitch <==> d.feederId == None
    ensures var d := DeviceAt(breaker, k); d.feederId.Some? ==> d.feederId.value in {FAULTED, OTHER}
  {
    hide Name;
  }

  lemma GridDeviceOwners(b: SwitchState)
    ensures Satisfies(Grid(b), OwnedDevices) && Satisfies(Grid(b), KnownOwners)
  {
    hide Name, FeederIds, DeviceAt;
    GridFeederIds(b);
    forall d | d in Grid(b).devices
      ensures (d.kind == TieSwitch <==> d.feederId == None)
              && (d.feederId.Some? ==> d.feederId.value in FeederIds(Grid(b)))
    {
      var k :| 0 <= k < 6 && d == DeviceAt(b, k);
      DeviceOwner(b, k);
    }
  }

  lemma GridIsWellFormed(b: SwitchState)
    ensures WellFormed(Grid(b))
  {
    hide Name, Rank, Grid, EdgeConsistent, FeederConsistent, ZonesConsistent, Incidence, SourceEdge, EntityIds;
    hide Distinct;
    GridSectionOwners(b);
    GridDeviceOwners(b);
    GridEntityIds(b);
    GridEdges(b);
    GridIncidence(b);
    GridFeeders(b);
    GridAssumptions(b);
    GridZones(b);
    forall rule ensures Satisfies(Grid(b), rule) {}
    forall assumption ensures Assumed(Grid(b), assumption) {}
  }

  // ---------------------------------------------------------------- lookups

  lemma GridSection(b: SwitchState, k: nat)
    requires k < 5
    ensures SectionById(Grid(b), SectionAt(k).id) == Some(SectionAt(k))
  {
    hide Name, Rank;
    NamesDiffer();
    GridSets(b);
    var r := SectionById(Grid(b), SectionAt(k).id);
    var j :| 0 <= j < 5 && r.value == SectionAt(j);
    assert Rank(SectionAt(j).id) == 3 + j && Rank(SectionAt(k).id) == 3 + k;
  }

  lemma GridFeeder(b: SwitchState)
    ensures FeederById(Grid(b), FAULTED) == Some(Grid(b).feeders[0])
            && FeederById(Grid(b), OTHER) == Some(Grid(b).feeders[1])
  {
    hide Name, Rank;
    NamesDiffer();
    GridSets(b);
  }

  lemma GridDevice(b: SwitchState, k: nat)
    requires k < 6
    ensures DeviceById(Grid(b), DeviceAt(b, k).id) == Some(DeviceAt(b, k))
  {
    hide Name, Rank;
    NamesDiffer();
    var c := Grid(b);
    assert c.devices[k] == DeviceAt(b, k) && DeviceAt(b, k) in c.devices;
    var r := DeviceById(c, DeviceAt(b, k).id);
    var j :| 0 <= j < 6 && r.value == DeviceAt(b, j);
    assert Rank(DeviceAt(b, j).id) == 8 + j && Rank(DeviceAt(b, k).id) == 8 + k;
  }

  /** The devices at a section, given the edges that end there. */
  lemma GridBoundary(b: SwitchState, s: Id, i: nat, j: nat)
    requires s in {NEAR, MIDDLE, FAR, BACKUP, STRAY} && i < 12 && j < 12
    requires forall k: nat | k < 12 :: TerminalOf(k) == s <==> k == i || k == j
    ensures BoundarySet(Grid(b), s) == {DeviceOf(i), DeviceOf(j)}
  {
    hide Name, Rank, TerminalOf, DeviceOf;
    var c := Grid(b);
    GridSets(b);
    forall d ensures d in BoundarySet(c, s) <==> d == DeviceOf(i) || d == DeviceOf(j) {
      if d in BoundarySet(c, s) {
        var e :| e in c.edges && s in {e.a, e.b} && DeviceEnd(c, e) == d;
        var k :| 0 <= k < 12 && e == EdgeAt(k);
        GridEnds(b, k);
      }
      GridEnds(b, i);
      GridEnds(b, j);
      assert c.edges[i] == EdgeAt(i) && c.edges[j] == EdgeAt(j) && EdgeAt(i) in c.edges && EdgeAt(j) in c.edges;
    }
  }

  lemma GridBoundaries(b: SwitchState)
    ensures BoundarySet(Grid(b), NEAR) == {FAULTED_BREAKER, FIRST} && BoundarySet(Grid(b), MIDDLE) == {FIRST, SECOND}
  {
    hide Name, Rank, Grid, BoundarySet;
    NamesDiffer();
    GridBoundary(b, NEAR, 3, 4);
    GridBoundary(b, MIDDLE, 5, 6);
  }

  /** The two formal switches alone bound no section but the middle one. */
  lemma OnlyMiddle(b: SwitchState, s: Id)
    requires s in SectionIds(Grid(b)) && BoundarySet(Grid(b), s) == {FIRST, SECOND}
    ensures s == MIDDLE
  {
    hide Name, Rank, BoundarySet, Grid;
    NamesDiffer();
    GridSets(b);
    GridBoundaries(b);
    assert FAULTED_BREAKER in {FAULTED_BREAKER, FIRST};
    EdgeBounds(b, 0);
    EdgeBounds(b, 1);
    EdgeBounds(b, 11);
  }

  lemma EdgeBounds(b: SwitchState, k: nat)
    requires k < 12
    ensures DeviceOf(k) in BoundarySet(Grid(b), TerminalOf(k))
  {
    hide Name, Rank, DeviceOf, TerminalOf, DeviceIds, TerminalIds;
    GridEnds(b, k);
    assert Grid(b).edges[k] == EdgeAt(k) && EdgeAt(k) in Grid(b).edges;
  }

  lemma GridAffected(b: SwitchState)
    ensures AffectedFeeder(Grid(b), NEAR) == Some(Grid(b).feeders[0])
            && AffectedFeeder(Grid(b), MIDDLE) == Some(Grid(b).feeders[0])
  {
    hide Name, Rank, Grid, SectionById, FeederById;
    GridSection(b, 0);
    GridSection(b, 1);
    GridFeeder(b);
  }

  function GridLoaded(breaker: SwitchState): Loaded { Loaded("grid", "1.1", Grid(breaker)) }

  const SUPPLYING: Sources := map[SUBSTATION := SourceAvailability.Available]

  /** The normal states of the switching devices. */
  function GridStates(breaker: SwitchState): States {
    map[FAULTED_BREAKER := breaker, OTHER_BREAKER := Closed, FIRST := Closed, SECOND := Closed, TIE := Open,
        LINK := Closed]
  }

  lemma NormalAt(b: SwitchState, time: int, k: nat)
    requires k < 6
    ensures var d, points := DeviceAt(b, k), NormalPoints(Grid(b), time);
            d.id in points && points[d.id].value == d.normalState
  {
    hide Name, Grid, DeviceById, DeviceAt;
    GridDevice(b, k);
  }

  lemma GridKeys(b: SwitchState)
    ensures GridStates(b).Keys == DeviceIds(Grid(b))
    ensures forall k: nat | k < 6 :: DeviceAt(b, k).id in GridStates(b)
                                     && GridStates(b)[DeviceAt(b, k).id] == DeviceAt(b, k).normalState
  {
    hide Name, Rank, Grid, DeviceIds;
    NamesDiffer();
    GridDeviceIds(b);
  }

  lemma GridIsNormal(b: SwitchState, time: int)
    ensures StatesOf(NormalPoints(Grid(b), time)) == GridStates(b) && NormalSources(Grid(b)) == SUPPLYING
  {
    hide Name, Grid, DeviceById, DeviceAt, GridStates, DeviceIds;
    GridKeys(b);
    GridFeederIds(b);
    GridSource(b);
    forall d | d in DeviceIds(Grid(b)) ensures NormalPoints(Grid(b), time)[d].value == GridStates(b)[d] {
      DeviceIndex(b, d);
      var k: nat :| k < 6 && DeviceAt(b, k).id == d;
      NormalAt(b, time, k);
    }
  }

  lemma DeviceIndex(b: SwitchState, d: Id)
    requires d in DeviceIds(Grid(b))
    ensures exists k: nat :: k < 6 && DeviceAt(b, k).id == d
  {
    hide Name, DeviceAt;
    var x :| x in Grid(b).devices && x.id == d;
    var k :| 0 <= k < 6 && Grid(b).devices[k] == x;
    assert DeviceAt(b, k).id == d;
  }

  lemma GridSource(b: SwitchState)
    ensures SourceById(Grid(b), SUBSTATION) == Some(Source(SUBSTATION, SourceAvailability.Available))
  {
    hide Name, Rank;
    GridSets(b);
  }

  lemma GridBreaker(b: SwitchState)
    ensures Grid(b).feeders[0].breakerId == FAULTED_BREAKER
    ensures FAULTED_BREAKER in NormalPoints(Grid(b), 0) && NormalPoints(Grid(b), 0)[FAULTED_BREAKER].value == b
  {
    hide Name, DeviceById;
    GridDevice(b, 0);
  }

  // ---------------------------------------------------------------- runs on the sample network

  /** One configuration, filed as version 1.1. */
  function SampleEnv(def: Definition, breaker: SwitchState): Environment {
    Environment(map[EXPLORATION_VERSION := GridLoaded(breaker)], def, "build")
  }

  lemma SampleEnvOk(def: Definition, b: SwitchState)
    ensures EnvironmentOk(SampleEnv(def, b))
  {
    hide WellFormed, Grid;
    GridIsWellFormed(b);
  }

  /** The run the first request of all has started. */
  lemma SampleStarts(def: Definition, b: SwitchState, req: InitialiseRequest, fault: Id)
    requires EnvironmentOk(SampleEnv(def, b)) && Chosen(SampleEnv(def, b), req)
             == Result.Success((GridLoaded(b), fault))
    requires fault in SectionIds(Grid(b))
    ensures var env := SampleEnv(def, b); var h := [Begin(req)];
            && Ready(env, EMPTY) && HistoryOk(h) && req.commandId in Final(env, EMPTY, h).runs
            && Final(env, EMPTY, h).results.Keys == {req.commandId}
            && var r := Final(env, EMPTY, h).runs[req.commandId];
               && r == NewRecord(GridLoaded(b), req.commandId, req.mode, fault, req.time, "build", req.actor)
               && r.run.version in env.catalog && LoadedFor(env, r) == GridLoaded(b)
               && WellFormed(Grid(b)) && RunInv(GridLoaded(b), r) && Runnable(Grid(b), r)
  {
    hide WellFormed, Grid, RunInv, Chosen, TopologyAt, OutageOf, EventsFrom, NormalPoints, NormalSources, StoreInv;
    hide Runnable;
    hide EnvironmentOk, Serviceable;
    GridIsWellFormed(b);
    FirstRun(SampleEnv(def, b), req);
    NewKeeps(GridLoaded(b), req.commandId, req.mode, fault, req.time, "build", req.actor);
    RunnableRun(GridLoaded(b), NewRecord(GridLoaded(b), req.commandId, req.mode, fault, req.time, "build", req.actor));
  }
}
