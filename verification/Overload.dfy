/** The formal schedule, carried out from the empty store to N5 on the sample network. Its PERMITTED
    restoration overloads the feeder that takes over: the sections it counts are only those of the faulted
    feeder, but another feeder's dead section comes back with them. */
module Overload {
  import opened Ids
  import opened Graphs
  import opened Trees
  import opened Configuration
  import opened Topology
  import opened Outage
  import opened Restoration
  import opened Energisation
  import opened TopologyFacts
  import opened Derivation
  import opened RestorationFacts
  import opened AssessmentMeaning
  import opened Handlers
  import opened Schedule
  import opened Sample

  // ---------------------------------------------------------------- before and after the tie is closed

  /** Isolated and restored upstream: the far section and the stray one are dead. */
  function Isolated(): States {
    map[FAULTED_BREAKER := Closed, OTHER_BREAKER := Closed, FIRST := Open, SECOND := Open, TIE := Open, LINK := Closed]
  }

  function Restored(): States { Isolated()[TIE := Closed] }

  lemma ScheduledIsIsolated()
    ensures ScheduledStates(Grid(Closed), FAULTED_BREAKER, 6) == Isolated()
    ensures NormalSources(Grid(Closed)) == SUPPLYING
  {
    hide Name, Rank, Grid, NormalPoints, NormalSources;
    NamesDiffer();
    GridIsNormal(Closed, 0);
    assert FIRST == FIRST_SWITCH && SECOND == SECOND_SWITCH by { FormalNames(); }
    assert GridStates(Closed)[FIRST := Open][SECOND := Open] == Isolated();
  }

  lemma FormalNames()
    ensures FIRST == FIRST_SWITCH && SECOND == SECOND_SWITCH && MIDDLE == FORMAL_DEFINITION.fault
  {
  }

  const LINKS_BEFORE: Pairs := {(FAULTED_BREAKER, NEAR), (OTHER_BREAKER, BACKUP), (LINK, FAR), (LINK, STRAY)}
  const LINKS_AFTER: Pairs := LINKS_BEFORE + {(TIE, FAR), (TIE, BACKUP)}

  /** An edge conducts when its device is closed and it is not on the source side. */
  lemma GridConducts(states: States, k: nat)
    requires k < 12
    ensures Conducts(Grid(Closed), states, EdgeAt(k)) <==> k != 2 && k != 8 && IsClosed(states, DeviceOf(k))
    ensures Link(Grid(Closed), EdgeAt(k)) == (DeviceOf(k), TerminalOf(k))
  {
    hide Name, Rank, Grid, DeviceOf, TerminalOf, SourceSide;
    GridEnds(Closed, k);
    GridSourceSide(Closed, k);
  }

  lemma GridLinksAre(states: States, x: (Id, Id))
    ensures x in Links(Grid(Closed), states) <==>
              exists k: nat :: k < 12 && k != 2 && k != 8 && IsClosed(states, DeviceOf(k))
                               && x == (DeviceOf(k), TerminalOf(k))
  {
    hide Name, Rank, DeviceOf, TerminalOf, Conducts, Link;
    var c := Grid(Closed);
    if x in Links(c, states) {
      var e :| e in c.edges && Conducts(c, states, e) && Link(c, e) == x;
      var k :| 0 <= k < 12 && e == EdgeAt(k);
      GridConducts(states, k);
    }
    if k: nat :| k < 12 && k != 2 && k != 8 && IsClosed(states, DeviceOf(k)) && x == (DeviceOf(k), TerminalOf(k)) {
      GridConducts(states, k);
      assert c.edges[k] == EdgeAt(k) && EdgeAt(k) in c.edges;
    }
  }

  lemma GridLinks()
    ensures Links(Grid(Closed), Isolated()) == LINKS_BEFORE && Links(Grid(Closed), Restored()) == LINKS_AFTER
  {
    hide Name, Rank, Links, Grid;
    NamesDiffer();
    forall x ensures x in Links(Grid(Closed), Isolated()) <==> x in LINKS_BEFORE {
      GridLinksAre(Isolated(), x);
      var closed := {(DeviceOf(3), TerminalOf(3)), (DeviceOf(9), TerminalOf(9)), (DeviceOf(10), TerminalOf(10)),
                     (DeviceOf(11), TerminalOf(11))};
      assert x in closed <==> x in LINKS_BEFORE;
    }
    forall x ensures x in Links(Grid(Closed), Restored()) <==> x in LINKS_AFTER {
      GridLinksAre(Restored(), x);
      var closed := {(DeviceOf(0), TerminalOf(0)), (DeviceOf(1), TerminalOf(1)), (DeviceOf(3), TerminalOf(3)),
                     (DeviceOf(9), TerminalOf(9)), (DeviceOf(10), TerminalOf(10)), (DeviceOf(11), TerminalOf(11))};
      assert x in closed <==> x in LINKS_AFTER;
    }
  }

  const UPSTREAM: set<Id> := {FAULTED_BREAKER, NEAR}
  const REACHED: set<Id> := {OTHER_BREAKER, BACKUP, TIE, FAR, LINK, STRAY}

  lemma GridComponents()
    ensures Component(LINKS_BEFORE, OTHER_BREAKER) == {OTHER_BREAKER, BACKUP}
    ensures Component(LINKS_BEFORE, FAULTED_BREAKER) == UPSTREAM
  {
    hide Name, Rank, Component;
    NamesDiffer();
    ComponentClosed(LINKS_BEFORE, OTHER_BREAKER);
    assert Adj(LINKS_BEFORE, OTHER_BREAKER, BACKUP);
    ComponentLeast(LINKS_BEFORE, OTHER_BREAKER, {OTHER_BREAKER, BACKUP});
    ComponentClosed(LINKS_BEFORE, FAULTED_BREAKER);
    assert Adj(LINKS_BEFORE, FAULTED_BREAKER, NEAR);
    ComponentLeast(LINKS_BEFORE, FAULTED_BREAKER, UPSTREAM);
  }

  lemma GridComponentsAfter()
    ensures Component(LINKS_AFTER, OTHER_BREAKER) == REACHED
    ensures Component(LINKS_AFTER, FAULTED_BREAKER) == UPSTREAM
  {
    hide Name, Rank, Component;
    NamesDiffer();
    ComponentClosed(LINKS_AFTER, OTHER_BREAKER);
    assert Adj(LINKS_AFTER, OTHER_BREAKER, BACKUP) && Adj(LINKS_AFTER, BACKUP, TIE) && Adj(LINKS_AFTER, TIE, FAR)
           && Adj(LINKS_AFTER, FAR, LINK) && Adj(LINKS_AFTER, LINK, STRAY);
    ComponentLeast(LINKS_AFTER, OTHER_BREAKER, REACHED);
    ComponentClosed(LINKS_AFTER, FAULTED_BREAKER);
    assert Adj(LINKS_AFTER, FAULTED_BREAKER, NEAR);
    ComponentLeast(LINKS_AFTER, FAULTED_BREAKER, UPSTREAM);
  }

  lemma GridTrees()
    ensures IsTree(LINKS_AFTER, Component(LINKS_AFTER, OTHER_BREAKER))
    ensures IsTree(LINKS_AFTER, Component(LINKS_AFTER, FAULTED_BREAKER))
  {
    hide Name, Rank, Component, IsTree;
    NamesDiffer();
    GridComponentsAfter();
    ComponentIsTree(LINKS_AFTER, OTHER_BREAKER);
    ComponentIsTree(LINKS_AFTER, FAULTED_BREAKER);
    assert Within(LINKS_AFTER, UPSTREAM) == {(FAULTED_BREAKER, NEAR)};
    var within := {(OTHER_BREAKER, BACKUP), (LINK, FAR), (LINK, STRAY), (TIE, FAR), (TIE, BACKUP)};
    assert Within(LINKS_AFTER, REACHED) == within;
    assert |within| == 5 && |REACHED| == 6 && |UPSTREAM| == 2;
  }

  /** Both feeders are in service, and each supplies what its breaker reaches. */
  lemma GridSupply(states: States, s: Id)
    requires states == Isolated() || states == Restored()
    ensures ActiveFeeders(Grid(Closed), states, SUPPLYING) == {FAULTED, OTHER}
    ensures Supply(Grid(Closed), states, SUPPLYING, s)
         == (if s in Component(Links(Grid(Closed), states), FAULTED_BREAKER) then {FAULTED} else {})
          + (if s in Component(Links(Grid(Closed), states), OTHER_BREAKER) then {OTHER} else {})
  {
    hide Name, Rank, Links, Component;
    var c := Grid(Closed);
    NamesDiffer();
    assert c.feeders[0] in c.feeders && c.feeders[1] in c.feeders;
    assert InService(c, states, SUPPLYING, c.feeders[0]) && InService(c, states, SUPPLYING, c.feeders[1]);
  }

  lemma SupplyBefore(s: Id)
    ensures Supply(Grid(Closed), Isolated(), SUPPLYING, s)
         == (if s in UPSTREAM then {FAULTED} else {}) + (if s == OTHER_BREAKER || s == BACKUP then {OTHER} else {})
  {
    hide Name, Rank, Links, Component, Supply, Grid, Isolated, Restored;
    GridLinks();
    GridComponents();
    GridSupply(Isolated(), s);
  }

  lemma GridLive()
    ensures Live(Grid(Closed), Isolated(), SUPPLYING) == {NEAR, BACKUP}
    ensures SuppliedBy(Grid(Closed), Isolated(), SUPPLYING, OTHER) == {BACKUP}
    ensures MultiplySupplied(Grid(Closed), Isolated(), SUPPLYING) == {}
  {
    hide Name, Rank, Supply, Grid, Isolated;
    NamesDiffer();
    GridSets(Closed);
    forall s | s in SectionIds(Grid(Closed))
      ensures Supply(Grid(Closed), Isolated(), SUPPLYING, s) == if s == NEAR then
        {FAULTED} else if s == BACKUP then {OTHER} else {}
    {
      SupplyBefore(s);
    }
  }

  lemma GridLiveAfter()
    ensures SuppliedBy(Grid(Closed), Restored(), SUPPLYING, OTHER) == {BACKUP, FAR, STRAY}
    ensures MultiplySupplied(Grid(Closed), Restored(), SUPPLYING) == {}
    ensures Supply(Grid(Closed), Restored(), SUPPLYING, FAR) == {OTHER}
  {
    hide Name, Rank, Links, Component, Supply, Grid, Isolated, Restored;
    NamesDiffer();
    GridSets(Closed);
    GridLinks();
    GridComponentsAfter();
    forall s ensures Supply(Grid(Closed), Restored(), SUPPLYING, s)
                     == (if s in UPSTREAM then {FAULTED} else {}) + (if s in REACHED then {OTHER} else {}) {
      GridSupply(Restored(), s);
    }
  }

  lemma GridIsRadial()
    ensures RadialNetwork(Grid(Closed), Restored(), SUPPLYING)
  {
    hide Name, Rank, Links, Component, IsTree, ActiveFeeders, Nodes, Isolated, Restored;
    var c := Grid(Closed);
    NamesDiffer();
    GridLinks();
    GridSupply(Restored(), FAR);
    GridTrees();
    GridComponentsAfter();
    assert c.feeders[0] in c.feeders && c.feeders[1] in c.feeders;
    assert Injections(c, {FAULTED, OTHER}) == {FAULTED_BREAKER, OTHER_BREAKER};
    forall n ensures !Improper(c, LINKS_AFTER, {FAULTED, OTHER}, Component(LINKS_AFTER, n)) {
      var K := Component(LINKS_AFTER, n);
      if OTHER_BREAKER in K {
        ComponentEqual(LINKS_AFTER, n, OTHER_BREAKER);
        assert K * {FAULTED_BREAKER, OTHER_BREAKER} == {OTHER_BREAKER};
      } else if FAULTED_BREAKER in K {
        ComponentEqual(LINKS_AFTER, n, FAULTED_BREAKER);
        assert K * {FAULTED_BREAKER, OTHER_BREAKER} == {FAULTED_BREAKER};
      } else {
        assert K * {FAULTED_BREAKER, OTHER_BREAKER} == {};
      }
    }
  }

  // ---------------------------------------------------------------- the assessment

  /** The inputs of an assessment of the isolated network on trustworthy evidence. */
  ghost predicate Asking(a: AssessmentInputs) {
    && a.fault == MIDDLE && StatesOf(a.points) == Isolated() && a.sources == SUPPLYING
    && a.topology == TopologyAt(Grid(Closed), a.points, SUPPLYING, Some(MIDDLE), a.time)
    && IsolatedIn(a.topology) && TelemetryPermissive(Grid(Closed), a) == Pass
  }

  lemma TieSides()
    ensures FarEnds(Grid(Closed).edges, TIE) == [FAR, BACKUP]
  {
    hide Name, Rank;
    NamesDiffer();
    var e := Grid(Closed).edges;
    assert e[0] == EdgeAt(0) && e[1..][0] == EdgeAt(1) && e[1..][1..] == e[2..];
    forall x | x in e[2..] ensures x.a != TIE && x.b != TIE {
      var k :| 0 <= k < 10 && e[2..][k] == x;
      assert x == EdgeAt(k + 2);
    }
    NoFarEnds(e[2..], TIE);
    assert FarEnds(e[1..], TIE) == [BACKUP] + FarEnds(e[2..], TIE);
  }

  lemma TieAlternate()
    ensures AlternateOf(Grid(Closed), SectionAt(1), DeviceAt(Closed, 4)) == Some(Grid(Closed).feeders[1])
  {
    hide Name, Rank, FarEnds;
    NamesDiffer();
    TieSides();
    GridSection(Closed, 2);
    GridSection(Closed, 3);
    var sides := [FAR, BACKUP];
    assert sides[1..] == [BACKUP] && sides[1..][1..] == [];
    assert OnFeeder(Grid(Closed), FAR, FAULTED) && !OnFeeder(Grid(Closed), BACKUP, FAULTED);
    assert SidesOn(Grid(Closed), sides[1..], FAULTED) == [];
    assert SidesOn(Grid(Closed), sides, FAULTED) == [FAR];
    assert FirstOutside(sides, [FAR]) == Some(BACKUP);
    GridFeeder(Closed);
  }

  function Structural(): TopologyResult { TopologyOf(Grid(Closed), ScenarioInputs(Restored(), SUPPLYING, MIDDLE)) }

  lemma StructuralIsRestored(a: AssessmentInputs)
    requires Asking(a)
    ensures StructuralInputs(a, TIE, Grid(Closed).feeders[1]) == ScenarioInputs(Restored(), SUPPLYING, MIDDLE)
  {
    hide Name, Rank, TopologyAt, StatesOf, IsolatedIn;
    NamesDiffer();
    assert Restored()[OTHER_BREAKER := Closed] == Restored();
    assert SUPPLYING[SUBSTATION := SourceAvailability.Available] == SUPPLYING;
  }

  /** With the tie closed the other feeder feeds the far section, which is dead before; the near one is
      energised already. */
  lemma FarSwitches(a: AssessmentInputs)
    requires Asking(a)
    ensures !EnergisedIn(a.topology, FAR) && EnergisedIn(a.topology, NEAR) && FedIn(Structural(), FAR, OTHER)
  {
    hide Name, Rank, Grid, TopologyOf, WellFormed, Live, Supply, Isolated, Restored, SectionIds, StatesOf, IsolatedIn;
    NamesDiffer();
    GridSets(Closed);
    GridIsWellFormed(Closed);
    GridLive();
    GridLiveAfter();
    SectionsMean(Grid(Closed), InputsAt(a.points, SUPPLYING, Some(MIDDLE), a.time));
    SectionsMean(Grid(Closed), ScenarioInputs(Restored(), SUPPLYING, MIDDLE));
    assert OTHER in {OTHER};
  }

  lemma FarIsPickedUp(a: AssessmentInputs)
    requires Asking(a)
    ensures PickedUp(Grid(Closed), a, FAULTED, Structural(), OTHER) == {FAR}
  {
    hide Name, Rank, Structural, Asking, EnergisedIn, FedIn;
    var c := Grid(Closed);
    NamesDiffer();
    FarSwitches(a);
    assert a.fault == MIDDLE by { AskedOf(a); }
    var picked := PickedUp(c, a, FAULTED, Structural(), OTHER);
    forall x | x in picked ensures x == FAR {
      var s :| s in c.sections && s.feederId == FAULTED && s.id != MIDDLE && !EnergisedIn(a.topology, s.id)
        && s.id == x;
      var k :| 0 <= k < 5 && s == SectionAt(k);
    }
    assert c.sections[2] == SectionAt(2) && SectionAt(2) in c.sections;
    assert FAR in picked;
  }

  lemma AskedOf(a: AssessmentInputs)
    requires Asking(a)
    ensures a.fault == MIDDLE && a.sources == SUPPLYING && StatesOf(a.points) == Isolated()
  {
    hide TopologyAt, IsolatedIn, TelemetryPermissive;
  }

  lemma {:induction false} LoadUpTo(n: nat, ids: set<Id>)
    requires n <= 5
    ensures LoadOf(Grid(Closed).sections[..n], ids)
         == if n == 0 then 0 else LoadOf(Grid(Closed).sections[..n - 1], ids)
                                  + (if SectionAt(n - 1).id in ids then 1 else 0)
  {
    if n > 0 {
      assert Grid(Closed).sections[..n][..n - 1] == Grid(Closed).sections[..n - 1];
      assert Grid(Closed).sections[..n][n - 1] == SectionAt(n - 1);
    }
  }

  lemma GridLoads()
    ensures LoadOf(Grid(Closed).sections, {BACKUP}) == 1 && LoadOf(Grid(Closed).sections, {FAR}) == 1
    ensures LoadOf(Grid(Closed).sections, {BACKUP, FAR, STRAY}) == 3
  {
    hide Name, Rank, LoadOf;
    NamesDiffer();
    assert Grid(Closed).sections[..5] == Grid(Closed).sections;
    forall ids: set<Id>
      ensures LoadOf(Grid(Closed).sections, ids)
           == (if NEAR in ids then 1 else 0) + (if MIDDLE in ids then 1 else 0) + (if FAR in ids then 1 else 0)
            + (if BACKUP in ids then 1 else 0) + (if STRAY in ids then 1 else 0)
    {
      LoadUpTo(0, ids); LoadUpTo(1, ids); LoadUpTo(2, ids); LoadUpTo(3, ids); LoadUpTo(4, ids); LoadUpTo(5, ids);
    }
  }

  /** The candidate that restores the far section from the other feeder. */
  predicate OverTheTie(k: Candidate) {
    && k.tie == TIE && k.sections == {FAR} && k.transferableKw == 1
    && k.alternateFeeder == OTHER && k.alternateSource == SUBSTATION && k.alternateBreaker == OTHER_BREAKER
  }

  lemma TieIsTried(a: AssessmentInputs)
    requires Asking(a)
    ensures var k := TryTie(GridLoaded(Closed), a, SectionAt(1), DeviceAt(Closed, 4)); k.Some? && OverTheTie(k.value)
  {
    hide Name, Rank, TopologyOf, Asking, PickedUp, AlternateOf, LoadOf, Restored, StructuralInputs, CustomersOf;
    hide PathEdges;
    TieAlternate();
    StructuralIsRestored(a);
    FarIsPickedUp(a);
    GridLoads();
  }

  lemma TieComesFirst()
    ensures Ties(Grid(Closed)) != [] && Ties(Grid(Closed))[0] == DeviceAt(Closed, 4)
  {
    hide Name, Rank, Sort, DeviceLeq, TieDevices;
    var c := Grid(Closed);
    TieDevicesMembers(c.devices);
    SortElements(TieDevices(c.devices), DeviceLeq);
    assert c.devices[4] == DeviceAt(Closed, 4) && DeviceAt(Closed, 4) in c.devices && DeviceAt(Closed, 4) in Ties(c);
    assert Ties(c)[0] in Ties(c);
    var k :| 0 <= k < 6 && Ties(c)[0] == DeviceAt(Closed, k);
  }

  lemma AskedCandidate(a: AssessmentInputs)
    requires Asking(a)
    ensures CandidateOf(GridLoaded(Closed), a).Some? && OverTheTie(CandidateOf(GridLoaded(Closed), a).value)
  {
    hide Name, Rank, Grid, Asking, TryTie, Ties, OverTheTie;
    GridSection(Closed, 1);
    AskedOf(a);
    TieComesFirst();
    TieIsTried(a);
  }

  // ---------------------------------------------------------------- the permissives

  lemma AskedLoad(a: AssessmentInputs)
    requires Asking(a)
    ensures OTHER in a.topology.loads && a.topology.loads[OTHER].complete && a.topology.loads[OTHER].loadKw == Some(1)
  {
    hide Name, Rank, Grid, TopologyOf, WellFormed, SectionIds, FeederIds, SuppliedBy, MultiplySupplied, LoadOf;
    hide Isolated;
    hide StatesOf, IsolatedIn;
    GridSets(Closed);
    GridIsWellFormed(Closed);
    GridLive();
    GridLoads();
    LoadsMean(Grid(Closed), InputsAt(a.points, SUPPLYING, Some(MIDDLE), a.time));
  }

  lemma StructuralIsRadial()
    ensures Structural().radiality == Radial
  {
    hide Name, Rank, Grid, TopologyOf, WellFormed, RadialNetwork, Restored;
    GridIsWellFormed(Closed);
    GridIsRadial();
    RadialityMeans(Grid(Closed), ScenarioInputs(Restored(), SUPPLYING, MIDDLE));
  }

  lemma ProposedIsStructural(a: AssessmentInputs, k: Candidate)
    requires Asking(a) && k.tie == TIE
    ensures TopologyOf(Grid(Closed), ProposedInputs(a, k)) == Structural()
  {
    hide Name, Rank, Grid, TopologyOf, Asking, StatesOf;
    AskedOf(a);
  }

  lemma OtherCapacity()
    ensures FeederById(Grid(Closed), OTHER).Some? && FeederById(Grid(Closed), OTHER).value.capacityKw == 2
  {
    GridFeeder(Closed);
  }

  lemma OtherIsClosed(a: AssessmentInputs)
    requires Asking(a)
    ensures OTHER_BREAKER in a.points && a.points[OTHER_BREAKER].value == Closed
  {
    hide Name, Rank, Asking;
    NamesDiffer();
    AskedOf(a);
    assert OTHER_BREAKER in StatesOf(a.points) && StatesOf(a.points)[OTHER_BREAKER] == Closed;
  }

  lemma AskedPermissives(a: AssessmentInputs, k: Candidate)
    requires Asking(a) && OverTheTie(k)
    ensures CalculationOf(Grid(Closed), a, k) == Some(Calculation(1, 1, 2, 2, true))
    ensures PermissivesOf(Grid(Closed), a, k) == Permissives(Pass, Pass, Pass, Pass, Pass)
  {
    hide Name, Rank, Grid, Structural, FedIn, TelemetryPermissive, TopologyOf, FeederById, ProposedInputs, StatesOf;
    ProposedIsStructural(a, k);
    StructuralIsRadial();
    FarSwitches(a);
    AskedLoad(a);
    OtherCapacity();
    OtherIsClosed(a);
  }

  /** The restoration is PERMITTED: isolated, radial, fed, trustworthy, and within capacity as assessed. */
  lemma AskedIsPermitted(a: AssessmentInputs)
    requires Asking(a)
    ensures var s := Assess(GridLoaded(Closed), a);
            && s.outcome == Permitted && s.candidate.Some? && OverTheTie(s.candidate.value)
            && s.calculation == Some(Calculation(1, 1, 2, 2, true))
  {
    hide Name, Rank, Grid, Asking, OverTheTie, CandidateOf, PermissivesOf, CalculationOf, RequiredPoints;
    AskedCandidate(a);
    AskedPermissives(a, CandidateOf(GridLoaded(Closed), a).value);
  }
}
