/** A PERMITTED assessment is safe for the fault, and executing it delivers what was assessed. */
module RestorationFacts {
  import opened Ids
  import opened Graphs
  import opened Configuration
  import opened Topology
  import opened Outage
  import opened Restoration
  import opened Energisation
  import opened TopologyFacts
  import opened Derivation

  // ---------------------------------------------------------------- closing one device

  function CloseAt(states: States, d: Id): States { states[d := Closed] }

  lemma CloseAddsAtDevice(c: Network, states: States, d: Id)
    requires Validated(c)
    ensures Links(c, states) <= Links(c, CloseAt(states, d))
    ensures forall u, v :: Adj(Links(c, CloseAt(states, d)), u, v) ==> Adj(Links(c, states), u, v) || u == d || v == d
    ensures IsClosed(states, d) ==> Links(c, CloseAt(states, d)) == Links(c, states)
  {
    hide Validated, SourceSide;
    assert ClosesMore(states, CloseAt(states, d));
    LinksMonotone(c, states, CloseAt(states, d));
    forall x | x in Links(c, CloseAt(states, d)) ensures x in Links(c, states) || x.0 == d {
      var e :| e in c.edges && Conducts(c, CloseAt(states, d), e) && Link(c, e) == x;
      assert DeviceEnd(c, e) != d ==> Conducts(c, states, e);
    }
    if IsClosed(states, d) {
      assert ClosesMore(CloseAt(states, d), states);
      LinksMonotone(c, CloseAt(states, d), states);
    }
  }

  lemma OpenDeviceHasNoLinks(c: Network, states: States, d: Id)
    requires Validated(c) && d in DeviceIds(c) && !IsClosed(states, d)
    ensures forall v :: !Adj(Links(c, states), d, v) && !Adj(Links(c, states), v, d)
  {
    hide Validated, SourceSide;
    LinksEnds(c, states);
    IdsAreDisjoint(c);
    forall x | x in Links(c, states) ensures x.0 != d {
      var e :| e in c.edges && Conducts(c, states, e) && Link(c, e) == x;
    }
  }

  /** Whatever closing a device newly connects to `b`, the device itself is connected to `b`. */
  lemma NewReachUsesDevice(c: Network, states: States, d: Id, b: Id, s: Id)
    requires Validated(c)
    requires s in Component(Links(c, CloseAt(states, d)), b) && s !in Component(Links(c, states), b)
    ensures d in Component(Links(c, CloseAt(states, d)), b)
  {
    hide Validated, Links, Component;
    var E, E' := Links(c, states), Links(c, CloseAt(states, d));
    CloseAddsAtDevice(c, states, d);
    ComponentClosed(E, b);
    ComponentClosed(E', b);
    ComponentMonotone(E, E', b);
    var S := Component(E, b);
    if d !in Component(E', b) {
      ComponentLeast(E', b, S);
      assert false;
    }
  }

  lemma TieNeighbours(c: Network, states: States, d: Id, fault: Id) returns (y: Id)
    requires WellFormed(c) && d in DeviceIds(c) && fault in SectionIds(c) && d in BoundarySet(c, fault)
    ensures forall v :: Adj(Links(c, states), d, v) ==> v == fault || v == y
  {
    hide WellFormed, Validated, SourceSide;
    WellFormedFacts(c);
    var i, j := DeviceEdges(c, d);
    var e :| e in c.edges && fault in {e.a, e.b} && DeviceEnd(c, e) == d;
    EdgeEnds(c, e);
    var k :| 0 <= k < |c.edges| && c.edges[k] == e;
    assert TerminalEnd(c, e) == fault;
    y := if k == i then TerminalEnd(c, c.edges[j]) else TerminalEnd(c, c.edges[i]);
    LinksEnds(c, states);
    IdsAreDisjoint(c);
    forall v | Adj(Links(c, states), d, v) ensures v == fault || v == y {
      assert (d, v) in Links(c, states);
      var x :| x in c.edges && Conducts(c, states, x) && Link(c, x) == (d, v);
      var m :| 0 <= m < |c.edges| && c.edges[m] == x;
    }
  }

  lemma OnlyDeviceTouchesFault(c: Network, states: States, d: Id, fault: Id)
    requires WellFormed(c) && d in DeviceIds(c) && fault in SectionIds(c) && BoundariesOpen(c, fault, states)
    ensures forall v :: Adj(Links(c, CloseAt(states, d)), fault, v) ==> v == d
    ensures forall v :: !Adj(Links(c, states), fault, v)
  {
    hide WellFormed, Validated, Links, BoundariesOpen;
    WellFormedFacts(c);
    FaultHasNoLink(c, fault, states);
    CloseAddsAtDevice(c, states, d);
    IdsAreDisjoint(c);
    forall v ensures !Adj(Links(c, states), fault, v) {
      assert Adj(Links(c, states), fault, v) == Adj(Links(c, states), v, fault);
    }
  }

  /** Closing an open boundary of an otherwise isolated section connects a breaker to nothing but
      the device and the section. */
  lemma BoundaryCloseReachesNothing(c: Network, states: States, d: Id, fault: Id, b: Id, s: Id)
    requires WellFormed(c) && d in DeviceIds(c) && fault in SectionIds(c) && d in BoundarySet(c, fault)
    requires BoundariesOpen(c, fault, states)
    requires b in DeviceIds(c) && b != d && s in SectionIds(c) && s != fault
    requires s in Component(Links(c, CloseAt(states, d)), b)
    ensures s in Component(Links(c, states), b)
  {
    hide WellFormed, Validated, Links, Component, BoundarySet, DeviceIds, SectionIds, SourceIds;
    WellFormedFacts(c);
    IdsAreDisjoint(c);
    assert !IsClosed(states, d);
    var E, E' := Links(c, states), Links(c, CloseAt(states, d));
    CloseAddsAtDevice(c, states, d);
    OpenDeviceHasNoLinks(c, states, d);
    OnlyDeviceTouchesFault(c, states, d, fault);
    var y := TieNeighbours(c, CloseAt(states, d), d, fault);
    var S := Component(E, b);
    ComponentClosed(E, b);
    var T := if y in S then S + {d, fault} else S;
    UntouchedNotReached(E, b, d);
    UntouchedNotReached(E, b, fault);
    forall u, v | u in T && Adj(E', u, v) ensures v in T {
      assert Adj(E', v, u);
      assert Adj(E', u, v) ==> Adj(E, u, v) || u == d || v == d;
    }
    ComponentLeast(E', b, T);
  }

  lemma UntouchedNotReached(E: Pairs, b: Id, x: Id)
    requires b != x && forall v :: !Adj(E, x, v)
    ensures x !in Component(E, b)
  {
    ComponentClosed(E, b);
    var T := Component(E, b) - {x};
    forall u, v | u in T && Adj(E, u, v) ensures v in T {
      assert Adj(E, v, u);
    }
    ComponentLeast(E, b, T);
  }

  // ---------------------------------------------------------------- what a candidate is

  ghost predicate CandidateShape(l: Loaded, a: AssessmentInputs, k: Candidate, fault: Section, tie: Device, f: Feeder) {
    var c := l.data;
    && fault in c.sections && fault.id == a.fault
    && tie in c.devices && tie.kind == TieSwitch && tie.id == k.tie
    && f in c.feeders && f.id == k.alternateFeeder && f.sourceId == k.alternateSource
       && f.breakerId == k.alternateBreaker
    && k.affectedFeeder == fault.feederId
    && k.sections == PickedUp(c, a, fault.feederId, TopologyOf(c, StructuralInputs(a, tie.id, f)), f.id)
    && k.sections != {}
    && k.transferableKw == LoadOf(c.sections, k.sections)
    && k.restoredCustomers == CustomersOf(c.zones, k.sections * a.outage.deEnergised)
    && k.key == CandidateKey(l.configurationId, a.fault, tie.id, f.id, k.sections)
  }

  lemma {:induction false} TieDevicesMembers(devices: seq<Device>)
    ensures forall d :: d in TieDevices(devices) <==> d in devices && d.kind == TieSwitch
  {
    if devices != [] {
      TieDevicesMembers(devices[1..]);
      assert devices == [devices[0]] + devices[1..];
    }
  }

  lemma {:induction false} DiscoverShape(l: Loaded, a: AssessmentInputs, fault: Section, ties: seq<Device>)
      returns (tie: Device, f: Feeder)
    requires fault in l.data.sections && fault.id == a.fault
    requires forall d | d in ties :: d in l.data.devices && d.kind == TieSwitch
    requires Discover(l, a, fault, ties).Some?
    ensures CandidateShape(l, a, Discover(l, a, fault, ties).value, fault, tie, f)
  {
    hide TopologyOf, StructuralInputs, PickedUp, PathEdges, FarEnds, SidesOn, FirstOutside;
    assert ties[0] in ties;
    var k := TryTie(l, a, fault, ties[0]);
    if k.Some? {
      tie, f := ties[0], AlternateOf(l.data, fault, ties[0]).value;
    } else {
      assert forall d | d in ties[1..] :: d in ties;
      tie, f := DiscoverShape(l, a, fault, ties[1..]);
    }
  }

  lemma CandidateHasShape(l: Loaded, a: AssessmentInputs) returns (fault: Section, tie: Device, f: Feeder)
    requires CandidateOf(l, a).Some?
    ensures CandidateShape(l, a, CandidateOf(l, a).value, fault, tie, f)
  {
    hide Discover, Sort, CandidateShape;
    fault := SectionById(l.data, a.fault).value;
    TieDevicesMembers(l.data.devices);
    SortElements(TieDevices(l.data.devices), DeviceLeq);
    tie, f := DiscoverShape(l, a, fault, Ties(l.data));
  }

  // ---------------------------------------------------------------- soundness of PERMITTED

  datatype Ground = FaultKnown | PointsComplete | TopologyCurrent | OutageCurrent

  ghost predicate Grounds(c: Network, a: AssessmentInputs, ground: Ground) {
    match ground
    case FaultKnown => a.fault in SectionIds(c)
    case PointsComplete => a.points.Keys == DeviceIds(c)
    case TopologyCurrent => a.topology == TopologyAt(c, a.points, a.sources, Some(a.fault), a.time)
    case OutageCurrent => a.outage.deEnergised == SectionIds(c) - LiveNow(c, a.points, a.sources)
  }

  /** The assessment was given the topology and outage derived from its own telemetry. */
  ghost predicate Grounded(c: Network, a: AssessmentInputs) { forall ground :: Grounds(c, a, ground) }

  lemma GroundedParts(c: Network, a: AssessmentInputs)
    requires Grounded(c, a)
    ensures a.fault in SectionIds(c) && a.points.Keys == DeviceIds(c)
    ensures a.topology == TopologyAt(c, a.points, a.sources, Some(a.fault), a.time)
    ensures a.outage.deEnergised == SectionIds(c) - LiveNow(c, a.points, a.sources)
  {
    hide TopologyAt, LiveNow;
    assert Grounds(c, a, FaultKnown) && Grounds(c, a, PointsComplete) && Grounds(c, a, TopologyCurrent)
           && Grounds(c, a, OutageCurrent);
  }

  function After(a: AssessmentInputs, k: Candidate): States { CloseAt(StatesOf(a.points), k.tie) }

  /** What the permissives of a PERMITTED assessment say about reachability. */
  ghost predicate PermittedMeans(l: Loaded, a: AssessmentInputs, k: Candidate, f: Feeder) {
    var c := l.data;
    && CandidateOf(l, a) == Some(k) && f in c.feeders && f.id == k.alternateFeeder
    && k.sections != {} && k.sections <= SectionIds(c) - {a.fault} - LiveNow(c, a.points, a.sources)
    && k.tie in DeviceIds(c) && k.tie !in BreakerIds(c)
    && ProvenOpenAt(c, a.fault, a.points, a.time)
    && (forall s | s in k.sections :: Feeds(c, After(a, k), a.sources, f, s))
    && InService(c, StatesOf(a.points), a.sources, f)
    && RadialNetwork(c, After(a, k), a.sources)
  }

  lemma PermittedParts(l: Loaded, a: AssessmentInputs)
    requires Assess(l, a).outcome == Permitted
    ensures CandidateOf(l, a).Some? && Assess(l, a).candidate == CandidateOf(l, a)
    ensures var p := PermissivesOf(l.data, a, CandidateOf(l, a).value);
            p.isolation != Fail && p.alternate != Fail && p.radial != Fail && p.telemetry != Insufficient
            && p.capacity == Pass && Assess(l, a).calculation == CalculationOf(l.data, a, CandidateOf(l, a).value)
  {
    hide CandidateOf, PermissivesOf, CalculationOf, RequiredPoints;
    var k := CandidateOf(l, a).value;
    assert PermissivesOf(l.data, a, k).capacity in {Pass, Fail, Insufficient};
  }

  predicate AlternateReady(a: AssessmentInputs, k: Candidate) {
    && k.alternateSource in a.sources && a.sources[k.alternateSource] == SourceAvailability.Available
    && k.alternateBreaker in a.points && a.points[k.alternateBreaker].value == Closed
  }

  lemma PermissivesMean(c: Network, a: AssessmentInputs, k: Candidate)
    ensures var p := PermissivesOf(c, a, k); var t := TopologyOf(c, ProposedInputs(a, k));
            && (p.isolation != Fail <==> IsolatedIn(a.topology))
            && (p.radial != Fail <==> t.radiality == Radial)
            && (p.alternate != Fail ==> AlternateReady(a, k) && forall s | s in k.sections ::
                  FedIn(t, s, k.alternateFeeder))
  {
    hide TopologyOf, CalculationOf;
  }

  lemma PickedUpSections(c: Network, a: AssessmentInputs, feeder: Id, structural: TopologyResult, alternate: Id)
    requires WellFormed(c) && Grounded(c, a)
    ensures PickedUp(c, a, feeder, structural, alternate) <= SectionIds(c) - {a.fault} - LiveNow(c, a.points, a.sources)
  {
    hide WellFormed, Live, TopologyOf;
    GroundedParts(c, a);
    SectionsMean(c, InputsAt(a.points, a.sources, Some(a.fault), a.time));
    forall s | s in PickedUp(c, a, feeder, structural, alternate)
      ensures s in SectionIds(c) - {a.fault} - LiveNow(c, a.points, a.sources) {
    }
  }

  lemma FedMeans(c: Network, i: Inputs, f: Feeder, s: Id)
    requires WellFormed(c) && f in c.feeders && s in SectionIds(c)
    ensures FedIn(TopologyOf(c, i), s, f.id) <==> Feeds(c, i.states, i.sources, f, s)
  {
    hide WellFormed, Validated, TopologyOf, Feeds, Live, SectionPaths;
    WellFormedFacts(c);
    SectionsMean(c, i);
    if f.id in Supply(c, i.states, i.sources, s) {
      var h :| h in c.feeders && Feeds(c, i.states, i.sources, h, s) && h.id == f.id;
      FeedersAreUnique(c, f, h);
    }
  }

  lemma PermittedIsMeant(l: Loaded, a: AssessmentInputs) returns (k: Candidate, f: Feeder)
    requires WellFormed(l.data) && Grounded(l.data, a) && Assess(l, a).outcome == Permitted
    ensures Assess(l, a).candidate == Some(k) && PermittedMeans(l, a, k, f)
    ensures exists fault, tie :: CandidateShape(l, a, k, fault, tie, f)
  {
    hide WellFormed, Validated, Assess, PermissivesOf, CandidateOf, TopologyOf, PickedUp, Live, Feeds, RadialNetwork;
    hide ProvenOpenAt, StructuralInputs, DeviceIds, SectionIds, BreakerIds;
    GroundedParts(l.data, a);
    var c := l.data;
    WellFormedFacts(c);
    PermittedParts(l, a);
    k := CandidateOf(l, a).value;
    var fault, tie;
    fault, tie, f := CandidateHasShape(l, a);
    PermissivesMean(c, a, k);
    PickedUpSections(c, a, fault.feederId, TopologyOf(c, StructuralInputs(a, tie.id, f)), f.id);
    IsolatedMeans(c, a.points, a.sources, a.fault, a.time);
    RadialityMeans(c, ProposedInputs(a, k));
    BreakersAreDevices(c);
    TieIsDevice(c, tie);
    forall s | s in k.sections ensures Feeds(c, After(a, k), a.sources, f, s) {
      FedMeans(c, ProposedInputs(a, k), f, s);
    }
    assert InService(c, StatesOf(a.points), a.sources, f);
  }

  lemma TieIsDevice(c: Network, tie: Device)
    requires Validated(c) && tie in c.devices && tie.kind == TieSwitch
    ensures tie.id in DeviceIds(c) && tie.id !in BreakerIds(c)
  {
    hide Validated;
    BreakersAreDevices(c);
  }

  lemma MeantTieIsSafe(l: Loaded, a: AssessmentInputs, k: Candidate, f: Feeder)
    requires WellFormed(l.data) && Grounded(l.data, a) && PermittedMeans(l, a, k, f)
    ensures !IsClosed(StatesOf(a.points), k.tie) && k.tie !in BoundarySet(l.data, a.fault)
  {
    hide WellFormed, Validated, CandidateOf, Links, Component, RadialNetwork, ProvenOpenAt, BoundarySet, DeviceIds;
    hide SectionIds, BreakerIds, Live, TopologyAt, BoundariesOpen;
    GroundedParts(l.data, a);
    var c := l.data;
    WellFormedFacts(c);
    IsolatedMeans(c, a.points, a.sources, a.fault, a.time);
    BreakersAreDevices(c);
    var states := StatesOf(a.points);
    var s :| s in k.sections;
    CloseAddsAtDevice(c, states, k.tie);
    BreakerOf(c, f);
    NotLiveNotFed(c, states, a.sources, f, s);
    assert Feeds(c, After(a, k), a.sources, f, s);
    if k.tie in BoundarySet(c, a.fault) {
      BoundaryCloseReachesNothing(c, states, k.tie, a.fault, f.breakerId, s);
    }
  }

  /** A PERMITTED assessment's tie is open and is not a boundary of the fault section, so closing it
      leaves every boundary open and the fault section without any source path. */
  lemma PermittedIsSafe(l: Loaded, a: AssessmentInputs)
    requires WellFormed(l.data) && Grounded(l.data, a) && Assess(l, a).outcome == Permitted
    ensures Assess(l, a).candidate.Some?
    ensures var k := Assess(l, a).candidate.value;
            && k.tie in a.points && a.points[k.tie].value == Open
            && k.tie !in BoundarySet(l.data, a.fault)
            && BoundariesOpen(l.data, a.fault, After(a, k))
            && a.fault !in Live(l.data, After(a, k), a.sources)
  {
    hide WellFormed, Assess, CandidateOf, RadialNetwork, ProvenOpenAt, BoundarySet, DeviceIds, SectionIds, BreakerIds;
    hide Live, TopologyAt, Feeds;
    GroundedParts(l.data, a);
    var c := l.data;
    var k, f := PermittedIsMeant(l, a);
    IsolatedMeans(c, a.points, a.sources, a.fault, a.time);
    MeantTieIsSafe(l, a, k, f);
    OpenBoundariesIsolate(c, a.fault, After(a, k), a.sources);
  }

  lemma BreakerOf(c: Network, f: Feeder)
    requires f in c.feeders
    ensures f.breakerId in BreakerIds(c)
  {
  }

  lemma NotLiveNotFed(c: Network, states: States, sources: Sources, f: Feeder, s: Id)
    requires f in c.feeders && s in SectionIds(c) && s !in Live(c, states, sources)
    ensures !Feeds(c, states, sources, f, s)
  {
    assert Feeds(c, states, sources, f, s) ==> f.id in Supply(c, states, sources, s);
  }
}
