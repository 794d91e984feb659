/** What an assessment finds and decides, said of the network and of the evidence: which tie it picks,
    what that tie picks up, and what each permissive and the outcome hold the run to. */
module AssessmentMeaning {
  import opened Ids
  import opened Configuration
  import opened Topology
  import opened Telemetry
  import opened Outage
  import opened Restoration
  import opened Energisation
  import opened TopologyFacts
  import opened Derivation
  import opened RestorationFacts

  // ---------------------------------------------------------------- the two sides of a tie

  /** An edge joins the device and the section. */
  ghost predicate Wired(c: Network, d: Id, s: Id) { exists e :: e in c.edges && {e.a, e.b} == {d, s} }

  /** The tie joins a section of the faulted feeder to a section of the other feeder `f`. */
  ghost predicate TieJoins(c: Network, fault: Section, tie: Id, x: Section, y: Section, f: Feeder) {
    && x in c.sections && y in c.sections && f in c.feeders
    && x.feederId == fault.feederId && y.feederId == f.id && f.id != fault.feederId
    && Wired(c, tie, x.id) && Wired(c, tie, y.id)
  }

  lemma FarEndsHead(edges: seq<Edge>, d: Id)
    requires edges != []
    ensures FarEnds(edges, d) == FarEnds(edges[..1], d) + FarEnds(edges[1..], d)
  {
    assert edges[..1][1..] == [];
  }

  lemma {:induction false} FarEndsConcat(x: seq<Edge>, y: seq<Edge>, d: Id)
    ensures FarEnds(x + y, d) == FarEnds(x, d) + FarEnds(y, d)
  {
    if x == [] {
      assert x + y == y;
    } else {
      hide FarEnds;
      FarEndsConcat(x[1..], y, d);
      FarEndsHead(x, d);
      FarEndsHead(x + y, d);
      assert (x + y)[1..] == x[1..] + y && (x + y)[..1] == x[..1];
    }
  }

  lemma {:induction false} NoFarEnds(edges: seq<Edge>, d: Id)
    requires forall e | e in edges :: e.a != d && e.b != d
    ensures FarEnds(edges, d) == []
  {
    if edges != [] {
      assert edges[0] in edges && forall e | e in edges[1..] :: e in edges;
      NoFarEnds(edges[1..], d);
    }
  }

  /** Edges away from the device add nothing. */
  lemma FarEndsSkip(edges: seq<Edge>, d: Id, i: nat, j: nat)
    requires i <= j <= |edges| && forall k | i <= k < j :: d !in {edges[k].a, edges[k].b}
    ensures FarEnds(edges[i..], d) == FarEnds(edges[j..], d)
  {
    hide FarEnds;
    forall e | e in edges[i..j] ensures e.a != d && e.b != d {
      var k :| i <= k < j && edges[k] == e;
    }
    NoFarEnds(edges[i..j], d);
    FarEndsConcat(edges[i..j], edges[j..], d);
    assert edges[i..] == edges[i..j] + edges[j..];
  }

  lemma FarEndsOfTwo(edges: seq<Edge>, d: Id, i: nat, j: nat)
    requires i < j < |edges|
    requires forall k | 0 <= k < |edges| && d in {edges[k].a, edges[k].b} :: k == i || k == j
    ensures FarEnds(edges, d) == FarEnds([edges[i]], d) + FarEnds([edges[j]], d)
  {
    hide FarEnds;
    FarEndsSkip(edges, d, 0, i);
    FarEndsHead(edges[i..], d);
    FarEndsSkip(edges, d, i + 1, j);
    FarEndsHead(edges[j..], d);
    FarEndsSkip(edges, d, j + 1, |edges|);
    NoFarEnds(edges[|edges|..], d);
    assert edges[0..] == edges && edges[i..][1..] == edges[i + 1..] && edges[j..][1..] == edges[j + 1..];
    assert edges[i..][..1] == [edges[i]] && edges[j..][..1] == [edges[j]];
  }

  /** A tie has two sides, both sections, and every edge at it leads to one of them. */
  lemma TieSides(c: Network, tie: Device) returns (u: Id, v: Id)
    requires WellFormed(c) && tie in c.devices && tie.kind == TieSwitch
    ensures FarEnds(c.edges, tie.id) == [u, v] && u in SectionIds(c) && v in SectionIds(c)
    ensures forall s | s in SectionIds(c) :: Wired(c, tie.id, s) <==> s == u || s == v
  {
    hide WellFormed, Validated;
    WellFormedFacts(c);
    TieIsDevice(c, tie);
    IdsAreDisjoint(c);
    var d := tie.id;
    var i, j := DeviceEdges(c, d);
    forall k | 0 <= k < |c.edges|
      ensures d in {c.edges[k].a, c.edges[k].b} <==> k == i || k == j
    {
      EdgeEnds(c, c.edges[k]);
    }
    TieEdge(c, tie, c.edges[i]);
    TieEdge(c, tie, c.edges[j]);
    u, v := TerminalEnd(c, c.edges[i]), TerminalEnd(c, c.edges[j]);
    FarEndsOfTwo(c.edges, d, i, j);
    forall s | s in SectionIds(c) ensures Wired(c, d, s) <==> s == u || s == v {
      if Wired(c, d, s) {
        var e :| e in c.edges && {e.a, e.b} == {d, s};
        var k :| 0 <= k < |c.edges| && c.edges[k] == e;
        assert k == i || k == j;
        EdgeEnds(c, e);
      }
    }
  }

  lemma TieEdge(c: Network, tie: Device, e: Edge)
    requires WellFormed(c) && tie in c.devices && tie.kind == TieSwitch && e in c.edges && DeviceEnd(c, e) == tie.id
    ensures TerminalEnd(c, e) in SectionIds(c) && {e.a, e.b} == {tie.id, TerminalEnd(c, e)}
            && tie.id != TerminalEnd(c, e)
    ensures FarEnds([e], tie.id) == [TerminalEnd(c, e)]
  {
    hide WellFormed, Validated;
    WellFormedFacts(c);
    TieIsDevice(c, tie);
    IdsAreDisjoint(c);
    EdgeEnds(c, e);
    assert !SourceSide(c, e) by { OnlySourceSideAtSource(c, e); }
    DistributionEdgeEnds(c, e);
    assert [e][1..] == [];
  }

  lemma OnlySourceSideAtSource(c: Network, e: Edge)
    requires WellFormed(c) && e in c.edges && DeviceEnd(c, e) !in BreakerIds(c)
    ensures !SourceSide(c, e)
  {
    hide Validated;
    BreakersAreDevices(c);
    EdgeEnds(c, e);
    assert {e.a, e.b} * BreakerIds(c) == {};
  }

  /** The section with this identifier. */
  lemma SectionOf(c: Network, id: Id) returns (s: Section)
    requires Validated(c) && id in SectionIds(c)
    ensures s in c.sections && s.id == id && SectionById(c, id) == Some(s)
    ensures forall t | t in c.sections && t.id == id :: t == s
    ensures forall f :: OnFeeder(c, id, f) <==> s.feederId == f
    ensures FeederById(c, s.feederId).Some?
  {
    hide EdgeConsistent, FeederConsistent, ZonesConsistent, EntityIds;
    s := SectionById(c, id).value;
    forall t | t in c.sections && t.id == id ensures t == s {
      var i :| 0 <= i < |c.sections| && c.sections[i] == s;
      var j :| 0 <= j < |c.sections| && c.sections[j] == t;
      SectionsAreUnique(c, i, j);
    }
    assert Satisfies(c, OwnedSections);
  }

  lemma AlternateOfSides(c: Network, fault: Section, tie: Device, x: Section, y: Section)
    requires Validated(c) && FarEnds(c.edges, tie.id) in {[x.id, y.id], [y.id, x.id]}
    requires SectionById(c, x.id) == Some(x) && SectionById(c, y.id) == Some(y)
    requires x.feederId == fault.feederId
    ensures AlternateOf(c, fault, tie)
            == if y.feederId == fault.feederId then None else FeederById(c, y.feederId)
  {
    hide Validated, FarEnds, SectionById;
    var sides := FarEnds(c.edges, tie.id);
    assert sides[1..] == [sides[1]] && sides[1..][1..] == [];
    var last := SidesOn(c, sides[1..], fault.feederId);
    assert SidesOn(c, [], fault.feederId) == [];
    assert last == if OnFeeder(c, sides[1], fault.feederId) then [sides[1]] else [];
    assert SidesOn(c, sides, fault.feederId) == (if OnFeeder(c, sides[0], fault.feederId) then [sides[0]] else [])
           + last;
    if y.feederId != fault.feederId {
      assert SidesOn(c, sides, fault.feederId) == [x.id];
      assert FirstOutside(sides[1..], [x.id]) == if sides[1] == x.id then None else Some(sides[1]);
      assert FirstOutside(sides, [x.id]) == Some(y.id);
    }
  }

  lemma NoSideAffected(c: Network, fault: Section, tie: Device, x: Section, y: Section)
    requires FarEnds(c.edges, tie.id) == [x.id, y.id]
    requires SectionById(c, x.id) == Some(x) && SectionById(c, y.id) == Some(y)
    requires x.feederId != fault.feederId && y.feederId != fault.feederId
    ensures AlternateOf(c, fault, tie) == None
  {
    hide FarEnds, SectionById;
    var sides := FarEnds(c.edges, tie.id);
    assert sides[1..] == [y.id] && sides[1..][1..] == [];
    assert SidesOn(c, sides[1..], fault.feederId) == [];
  }

  /** The alternate feeder of a tie is the feeder on its other side when exactly one side is on the
      faulted feeder, and there is none otherwise. */
  lemma AlternateMeans(c: Network, fault: Section, tie: Device, f: Feeder)
    requires WellFormed(c) && tie in c.devices && tie.kind == TieSwitch
    ensures AlternateOf(c, fault, tie) == Some(f) <==> exists x, y :: TieJoins(c, fault, tie.id, x, y, f)
  {
    hide WellFormed, Validated, FarEnds, AlternateOf, Wired, SectionIds, SectionById, FeederById;
    WellFormedFacts(c);
    var u, v := TieSides(c, tie);
    var x := SectionOf(c, u);
    var y := SectionOf(c, v);
    if x.feederId == fault.feederId { AlternateOfSides(c, fault, tie, x, y); }
    else if y.feederId == fault.feederId { AlternateOfSides(c, fault, tie, y, x); }
    else { NoSideAffected(c, fault, tie, x, y); }
    if AlternateOf(c, fault, tie) == Some(f) {
      AlternateIsListed(c, f, x.feederId);
      AlternateIsListed(c, f, y.feederId);
      assert TieJoins(c, fault, tie.id, x, y, f) || TieJoins(c, fault, tie.id, y, x, f);
    }
    forall p, q | TieJoins(c, fault, tie.id, p, q, f) ensures AlternateOf(c, fault, tie) == Some(f) {
      SectionIsNamed(c, p);
      SectionIsNamed(c, q);
      FeederIsNamed(c, f);
      assert (p == x && q == y) || (p == y && q == x);
    }
  }

  lemma AlternateIsListed(c: Network, f: Feeder, id: Id)
    ensures FeederById(c, id) == Some(f) ==> f in c.feeders && f.id == id
  {
  }

  lemma SectionIsNamed(c: Network, s: Section)
    requires s in c.sections
    ensures s.id in SectionIds(c)
  {
  }

  lemma FeederIsNamed(c: Network, f: Feeder)
    requires Validated(c) && f in c.feeders
    ensures FeederById(c, f.id) == Some(f)
  {
    hide Validated;
    assert f.id in FeederIds(c);
    FeedersAreUnique(c, f, FeederById(c, f.id).value);
  }

  // ---------------------------------------------------------------- what a tie picks up

  function TriedStates(a: AssessmentInputs, tie: Id, f: Feeder): States
    { StatesOf(a.points)[tie := Closed][f.breakerId := Closed] }
  function TriedSources(a: AssessmentInputs, f: Feeder): Sources
    { a.sources[f.sourceId := SourceAvailability.Available] }

  /** A healthy section of the faulted feeder is dead now, and the other feeder would reach it were the tie
      and that feeder's breaker closed and its source available. */
  ghost predicate PicksUp(c: Network, a: AssessmentInputs, fault: Section, tie: Id, f: Feeder, s: Section) {
    && s in c.sections && s.feederId == fault.feederId && s.id != fault.id
    && s.id !in LiveNow(c, a.points, a.sources)
    && Feeds(c, TriedStates(a, tie, f), TriedSources(a, f), f, s.id)
  }

  /** The tie joins the faulted feeder to `f`, and `f` picks something up over it. */
  ghost predicate Restores(c: Network, a: AssessmentInputs, fault: Section, tie: Id, f: Feeder) {
    && (exists x, y :: TieJoins(c, fault, tie, x, y, f))
    && exists s :: PicksUp(c, a, fault, tie, f, s)
  }

  lemma PickedUpMeans(c: Network, a: AssessmentInputs, fault: Section, tie: Device, f: Feeder)
    requires WellFormed(c) && Grounded(c, a) && fault in c.sections && fault.id == a.fault && f in c.feeders
    ensures var t := TopologyOf(c, StructuralInputs(a, tie.id, f));
            PickedUp(c, a, fault.feederId, t, f.id) == set s | s in c.sections
              && PicksUp(c, a, fault, tie.id, f, s) :: s.id
  {
    hide WellFormed, TopologyOf, Live, Feeds;
    GroundedParts(c, a);
    SectionsMean(c, InputsAt(a.points, a.sources, Some(a.fault), a.time));
    var i := StructuralInputs(a, tie.id, f);
    forall s | s in c.sections
      ensures !EnergisedIn(a.topology, s.id) <==> s.id !in LiveNow(c, a.points, a.sources)
      ensures FedIn(TopologyOf(c, i), s.id, f.id) <==> Feeds(c, TriedStates(a, tie.id, f), TriedSources(a, f), f, s.id)
    {
      assert s.id in SectionIds(c);
      FedMeans(c, i, f, s.id);
    }
  }

  /** The edge lies on a simple path from the feeder to the section. */
  ghost predicate OnSourcePath(c: Network, states: States, sources: Sources, s: Id, f: Feeder, e: Id) {
    exists p, x: SourcePath :: IsSourcePath(c, states, sources, s, f, p, x) && e in x.edges
  }

  /** What a candidate over `tie` to `f` says, field by field. */
  ghost predicate CandidateMeans(l: Loaded, a: AssessmentInputs, fault: Section, tie: Id, f: Feeder, k: Candidate) {
    var c := l.data;
    && k.tie == tie && k.affectedFeeder == fault.feederId
    && k.alternateFeeder == f.id && k.alternateSource == f.sourceId && k.alternateBreaker == f.breakerId
    && (forall id :: id in k.sections <==> exists s: Section :: s.id == id && PicksUp(c, a, fault, tie, f, s))
    && (forall e :: e in k.pathEdges <==>
          exists s :: s in k.sections && OnSourcePath(c, TriedStates(a, tie, f), TriedSources(a, f), s, f, e))
    && k.transferableKw == LoadOf(c.sections, k.sections)
    && k.restoredCustomers == CustomersOf(c.zones, k.sections)
    && k.key == CandidateKey(l.configurationId, a.fault, tie, f.id, k.sections)
  }

  lemma PathEdgesMean(c: Network, states: States, sources: Sources, i: Inputs, sections: set<Id>, f: Feeder, e: Id)
    requires WellFormed(c) && f in c.feeders && sections <= SectionIds(c) && i.states == states && i.sources == sources
    ensures e in PathEdges(TopologyOf(c, i), sections, f.id) <==>
              exists s :: s in sections && OnSourcePath(c, states, sources, s, f, e)
  {
    hide WellFormed, Validated, TopologyOf, SectionPaths, IsSourcePath, Live, Supply;
    WellFormedFacts(c);
    SectionsMean(c, i);
    var t := TopologyOf(c, i);
    if e in PathEdges(t, sections, f.id) {
      var s, x :| s in sections && s in t.sections && x in t.sections[s].paths && x.feederId == f.id && e in x.edges;
      SourcePathsExact(c, states, sources, s);
      var g, p :| IsSourcePath(c, states, sources, s, g, p, x);
      PathFeeder(c, states, sources, s, g, p, x);
      FeedersAreUnique(c, f, g);
      assert IsSourcePath(c, states, sources, s, f, p, x);
    }
    forall s | s in sections && OnSourcePath(c, states, sources, s, f, e) ensures e in PathEdges(t, sections, f.id) {
      var p, x: SourcePath :| IsSourcePath(c, states, sources, s, f, p, x) && e in x.edges;
      SourcePathsExact(c, states, sources, s);
      PathFeeder(c, states, sources, s, f, p, x);
      assert x in t.sections[s].paths;
    }
  }

  lemma PathFeeder(c: Network, states: States, sources: Sources, s: Id, f: Feeder, p: seq<Id>, x: SourcePath)
    requires IsSourcePath(c, states, sources, s, f, p, x)
    ensures f in c.feeders && x.feederId == f.id
  {
    hide Links, InService;
  }

  /** A tie yields a candidate exactly when it restores something, and the candidate says what. */
  lemma TryTieMeans(l: Loaded, a: AssessmentInputs, fault: Section, tie: Device)
    requires WellFormed(l.data) && Grounded(l.data, a) && fault in l.data.sections && fault.id == a.fault
    requires tie in l.data.devices && tie.kind == TieSwitch
    ensures TryTie(l, a, fault, tie).Some? <==> exists f :: Restores(l.data, a, fault, tie.id, f)
    ensures TryTie(l, a, fault, tie).Some? ==> exists f ::
              Restores(l.data, a, fault, tie.id, f)
              && CandidateMeans(l, a, fault, tie.id, f, TryTie(l, a, fault, tie).value)
  {
    hide WellFormed, TopologyOf, AlternateOf, PicksUp, TieJoins, PickedUp, CandidateMeans, StructuralInputs, PathEdges;
    var c := l.data;
    forall f ensures AlternateOf(c, fault, tie) == Some(f) <==> exists x, y :: TieJoins(c, fault, tie.id, x, y, f) {
      AlternateMeans(c, fault, tie, f);
    }
    assert forall f :: Restores(c, a, fault, tie.id, f) ==> AlternateOf(c, fault, tie) == Some(f);
    if AlternateOf(c, fault, tie).Some? {
      var f := AlternateOf(c, fault, tie).value;
      JoinedFeeder(c, fault, tie.id, f);
      PickedUpMeans(c, a, fault, tie, f);
      SomethingPickedUp(c, a, fault, tie, f);
      if TryTie(l, a, fault, tie).Some? {
        TriedCandidate(l, a, fault, tie, f, TryTie(l, a, fault, tie).value);
        assert Restores(c, a, fault, tie.id, f) && CandidateMeans(l, a, fault, tie.id, f,
               TryTie(l, a, fault, tie).value);
      }
    }
  }

  lemma JoinedFeeder(c: Network, fault: Section, tie: Id, f: Feeder)
    requires exists x, y :: TieJoins(c, fault, tie, x, y, f)
    ensures f in c.feeders
  {
  }

  lemma SomethingPickedUp(c: Network, a: AssessmentInputs, fault: Section, tie: Device, f: Feeder)
    requires PickedUp(c, a, fault.feederId, TopologyOf(c, StructuralInputs(a, tie.id, f)), f.id)
             == set s | s in c.sections && PicksUp(c, a, fault, tie.id, f, s) :: s.id
    ensures PickedUp(c, a, fault.feederId, TopologyOf(c, StructuralInputs(a, tie.id, f)), f.id) != {}
            <==> exists s :: PicksUp(c, a, fault, tie.id, f, s)
  {
    hide PickedUp, TopologyOf, Live, Feeds;
    forall s | PicksUp(c, a, fault, tie.id, f, s)
      ensures s.id in PickedUp(c, a, fault.feederId, TopologyOf(c, StructuralInputs(a, tie.id, f)), f.id)
    {
    }
  }

  lemma TriedCandidate(l: Loaded, a: AssessmentInputs, fault: Section, tie: Device, f: Feeder, k: Candidate)
    requires WellFormed(l.data) && Grounded(l.data, a) && fault in l.data.sections && fault.id == a.fault
    requires AlternateOf(l.data, fault, tie) == Some(f) && f in l.data.feeders
    requires TryTie(l, a, fault, tie) == Some(k)
    ensures CandidateMeans(l, a, fault, tie.id, f, k)
  {
    hide WellFormed, TopologyOf, AlternateOf, PickedUp, Live, Feeds, LoadOf, CustomersOf, PathEdges, OnSourcePath;
    hide SectionIds;
    var c, i := l.data, StructuralInputs(a, tie.id, f);
    PickedUpMeans(c, a, fault, tie, f);
    PickedUpSections(c, a, fault.feederId, TopologyOf(c, i), f.id);
    GroundedParts(c, a);
    assert k.sections * a.outage.deEnergised == k.sections;
    forall id ensures id in k.sections <==> exists s: Section :: s.id == id && PicksUp(c, a, fault, tie.id, f, s) {
    }
    forall e ensures e in k.pathEdges <==>
        exists s :: s in k.sections && OnSourcePath(c, TriedStates(a, tie.id, f), TriedSources(a, f), s, f, e)
    {
      PathEdgesMean(c, TriedStates(a, tie.id, f), TriedSources(a, f), i, k.sections, f, e);
    }
  }

  lemma DeviceOrder()
    ensures TotalPreorder(DeviceLeq)
  {
    hide IdLeq;
    IdOrder();
  }

  /** The search stops at the first tie that yields a candidate. */
  lemma {:induction false} DiscoverFirst(l: Loaded, a: AssessmentInputs, fault: Section, ties: seq<Device>)
      returns (n: nat)
    ensures n <= |ties| && forall j | 0 <= j < n :: TryTie(l, a, fault, ties[j]).None?
    ensures if n == |ties| then Discover(l, a, fault, ties).None?
            else TryTie(l, a, fault, ties[n]).Some? && Discover(l, a, fault, ties) == TryTie(l, a, fault, ties[n])
  {
    hide TryTie;
    if ties == [] || TryTie(l, a, fault, ties[0]).Some? {
      n := 0;
    } else {
      var m := DiscoverFirst(l, a, fault, ties[1..]);
      n := m + 1;
      forall j | 0 <= j < n ensures TryTie(l, a, fault, ties[j]).None? {
        if j > 0 { assert ties[j] == ties[1..][j - 1]; }
      }
    }
  }

  predicate IsTieOf(c: Network, d: Device) { d in c.devices && d.kind == TieSwitch }

  /** The candidate's tie is the least, in identifier order, of those that restore anything, and there is no
      candidate exactly when no tie does. */
  lemma CandidateIsLeast(l: Loaded, a: AssessmentInputs, fault: Section)
    requires WellFormed(l.data) && Grounded(l.data, a) && fault in l.data.sections && fault.id == a.fault
    ensures CandidateOf(l, a).None? <==>
              forall d, f | IsTieOf(l.data, d) :: !Restores(l.data, a, fault, d.id, f)
    ensures CandidateOf(l, a).Some? ==>
              && (exists d, f :: IsTieOf(l.data, d) && Restores(l.data, a, fault, d.id, f)
                                 && CandidateMeans(l, a, fault, d.id, f, CandidateOf(l, a).value))
              && forall d, f | IsTieOf(l.data, d) && Restores(l.data, a, fault, d.id, f) ::
                   IdLeq(CandidateOf(l, a).value.tie, d.id)
  {
    hide WellFormed, Validated, TryTie, Restores, IdLeq, Discover, TieDevices;
    var c, ties := l.data, Ties(l.data);
    WellFormedFacts(c);
    FaultIsNamed(c, a, fault);
    TieDevicesMembers(c.devices);
    SortElements(TieDevices(c.devices), DeviceLeq);
    DeviceOrder();
    SortSorted(TieDevices(c.devices), DeviceLeq);
    var n := DiscoverFirst(l, a, fault, ties);
    forall j | 0 <= j < |ties|
      ensures IsTieOf(c, ties[j]) && (TryTie(l, a, fault, ties[j]).Some?
                                      <==> exists f :: Restores(c, a, fault, ties[j].id, f))
    {
      assert ties[j] in ties;
      TryTieMeans(l, a, fault, ties[j]);
    }
    if n < |ties| {
      TryTieMeans(l, a, fault, ties[n]);
      TryTieNamed(l, a, fault, ties[n]);
    }
    forall d, f | IsTieOf(c, d) && Restores(c, a, fault, d.id, f)
      ensures CandidateOf(l, a).Some? && IdLeq(CandidateOf(l, a).value.tie, d.id)
    {
      assert d in ties;
      var j :| 0 <= j < |ties| && ties[j] == d;
      assert j >= n;
      assert DeviceLeq(ties[n], ties[n]) && DeviceLeq(ties[n], ties[j]);
    }
  }

  lemma TryTieNamed(l: Loaded, a: AssessmentInputs, fault: Section, tie: Device)
    ensures TryTie(l, a, fault, tie).Some? ==> TryTie(l, a, fault, tie).value.tie == tie.id
  {
    hide TopologyOf, AlternateOf, PickedUp;
  }

  lemma FaultIsNamed(c: Network, a: AssessmentInputs, fault: Section)
    requires Validated(c) && fault in c.sections && fault.id == a.fault
    ensures SectionById(c, a.fault) == Some(fault)
  {
    hide Validated, SectionById;
    SectionIsNamed(c, fault);
    var s := SectionOf(c, fault.id);
  }

  /** One section counts for its configured load. */
  lemma {:induction false} LoadOfSection(sections: seq<Section>, s: Section)
    requires s in sections && forall i, j | 0 <= i < j < |sections| :: sections[i].id != sections[j].id
    ensures LoadOf(sections, {s.id}) == s.loadKw
  {
    var n := |sections| - 1;
    if sections[n] == s {
      NoLoad(sections[..n], s.id);
    } else {
      var k :| 0 <= k < |sections| && sections[k] == s;
      LoadOfSection(sections[..n], s);
    }
  }

  lemma {:induction false} NoLoad(sections: seq<Section>, id: Id)
    requires forall s | s in sections :: s.id != id
    ensures LoadOf(sections, {id}) == 0
  {
    if sections != [] {
      assert sections[|sections|-1] in sections;
      NoLoad(sections[..|sections|-1], id);
    }
  }

  /** One section counts for the customers of its zone. */
  lemma {:induction false} CustomersOfSection(zones: seq<ZoneMapping>, z: ZoneMapping)
    requires z in zones && forall i, j | 0 <= i < j < |zones| :: zones[i].sectionId != zones[j].sectionId
    ensures CustomersOf(zones, {z.sectionId}) == z.customers
  {
    if zones[0] == z {
      NoCustomers(zones[1..], z.sectionId);
    } else {
      assert z in zones[1..];
      CustomersOfSection(zones[1..], z);
    }
  }

  lemma {:induction false} NoCustomers(zones: seq<ZoneMapping>, id: Id)
    requires forall z | z in zones :: z.sectionId != id
    ensures CustomersOf(zones, {id}) == 0
  {
    if zones != [] {
      assert zones[0] in zones;
      NoCustomers(zones[1..], id);
    }
  }

  // ---------------------------------------------------------------- the permissives and the outcome

  /** Every monitored point is good and at most a minute old. */
  predicate EvidenceHolds(c: Network, a: AssessmentInputs) {
    forall d | d in c.devices && d.monitored && d.id in a.points :: Trustworthy(a.points[d.id], a.time)
  }

  /** The fault section has boundary devices, and each is observed open on good evidence of the last minute. */
  predicate BoundaryProven(c: Network, points: map<Id, Point>, fault: Id, time: int) {
    && BoundarySet(c, fault) != {}
    && forall d | d in BoundarySet(c, fault) :: d in points && points[d].value == Open && Trustworthy(points[d], time)
  }

  /** With the tie closed the alternate feeder, in service as things are, reaches every proposed section. */
  ghost predicate AlternateSupplies(c: Network, a: AssessmentInputs, k: Candidate, f: Feeder) {
    InService(c, StatesOf(a.points), a.sources, f) && forall s | s in k.sections ::
        Feeds(c, After(a, k), a.sources, f, s)
  }

  /** No section has the alternate feeder as one of several. */
  ghost predicate Attributable(c: Network, a: AssessmentInputs, f: Feeder) {
    forall s | s in SectionIds(c) && f.id in Supply(c, StatesOf(a.points), a.sources, s) ::
      |Supply(c, StatesOf(a.points), a.sources, s)| <= 1
  }

  function ExistingLoad(c: Network, a: AssessmentInputs, f: Feeder): nat {
    LoadOf(c.sections, SuppliedBy(c, StatesOf(a.points), a.sources, f.id))
  }

  ghost predicate WithinCapacity(c: Network, a: AssessmentInputs, k: Candidate, f: Feeder) {
    ExistingLoad(c, a, f) + k.transferableKw <= f.capacityKw
  }

  lemma BoundaryProvenMeans(c: Network, points: map<Id, Point>, fault: Id, time: int)
    ensures ProvenOpenAt(c, fault, points, time) <==> BoundaryProven(c, points, fault, time)
  {
    hide BoundarySet, StatusAt, Classify;
    forall d | d in BoundarySet(c, fault)
      ensures StatusAt(points, d, time) == ProvenOpen <==>
              d in points && points[d].value == Open && Trustworthy(points[d], time)
    {
      StatusMeans(points, d, time);
      if d in points { TrustworthyMeans(points[d], time); }
    }
  }

  lemma EvidenceMeans(c: Network, a: AssessmentInputs)
    ensures TelemetryPermissive(c, a) == if EvidenceHolds(c, a) then Pass else Insufficient
  {
    hide Classify;
    var required := RequiredPoints(c, a.points);
    forall d | d in required ensures Classify(required[d], a.time).overallValid <==> Trustworthy(a.points[d], a.time) {
      TrustworthyMeans(a.points[d], a.time);
    }
    forall d | d in c.devices && d.monitored && d.id in a.points ensures d.id in required {
    }
  }

  lemma IsolationMeans(c: Network, a: AssessmentInputs)
    requires WellFormed(c) && Grounded(c, a)
    ensures IsolationPermissive(a) == if BoundaryProven(c, a.points, a.fault, a.time) then Pass else Fail
  {
    hide WellFormed, TopologyAt, ProvenOpenAt, BoundaryProven, Live;
    GroundedParts(c, a);
    IsolatedMeans(c, a.points, a.sources, a.fault, a.time);
    BoundaryProvenMeans(c, a.points, a.fault, a.time);
  }

  lemma AlternateSuppliesMeans(c: Network, a: AssessmentInputs, k: Candidate, f: Feeder)
    requires WellFormed(c) && Grounded(c, a) && f in c.feeders && k.sections <= SectionIds(c)
    requires k.alternateFeeder == f.id && k.alternateSource == f.sourceId && k.alternateBreaker == f.breakerId
    ensures AlternatePermissive(a, k, TopologyOf(c, ProposedInputs(a, k))) == if AlternateSupplies(c, a, k, f)
            then Pass else Fail
  {
    hide WellFormed, TopologyOf, Feeds, FedIn;
    forall s | s in k.sections
      ensures FedIn(TopologyOf(c, ProposedInputs(a, k)), s, f.id) <==> Feeds(c, After(a, k), a.sources, f, s)
    {
      FedMeans(c, ProposedInputs(a, k), f, s);
    }
  }

  lemma RadialMeans(c: Network, a: AssessmentInputs, k: Candidate)
    requires WellFormed(c)
    ensures RadialPermissive(TopologyOf(c, ProposedInputs(a, k)))
            == if RadialNetwork(c, After(a, k), a.sources) then Pass else Fail
  {
    hide WellFormed, TopologyOf, RadialNetwork;
    RadialityMeans(c, ProposedInputs(a, k));
  }

  lemma LoadMeans(c: Network, a: AssessmentInputs, f: Feeder)
    requires WellFormed(c) && Grounded(c, a) && f in c.feeders
    ensures f.id in a.topology.loads && FeederById(c, f.id) == Some(f)
    ensures a.topology.loads[f.id].complete <==> Attributable(c, a, f)
    ensures a.topology.loads[f.id].loadKw == if Attributable(c, a, f) then Some(ExistingLoad(c, a, f)) else None
  {
    hide WellFormed, Validated, TopologyOf, Supply, LoadOf, SuppliedBy, Live, FeederById;
    GroundedParts(c, a);
    WellFormedFacts(c);
    FeederIsNamed(c, f);
    LoadsMean(c, InputsAt(a.points, a.sources, Some(a.fault), a.time));
    assert f.id in FeederIds(c);
    var states := StatesOf(a.points);
    assert Attributable(c, a, f) <==>
           forall s | s in MultiplySupplied(c, states, a.sources) :: f.id !in Supply(c, states, a.sources, s);
  }

  /** The calculation is made exactly when the load can be attributed, from existing and transferable load. */
  lemma CalculationMeans(c: Network, a: AssessmentInputs, k: Candidate, f: Feeder)
    requires WellFormed(c) && Grounded(c, a) && f in c.feeders && k.alternateFeeder == f.id
    ensures CalculationOf(c, a, k) ==
            if !Attributable(c, a, f) then None
            else Some(Calculation(ExistingLoad(c, a, f), k.transferableKw, ExistingLoad(c, a, f) + k.transferableKw,
                                  f.capacityKw, WithinCapacity(c, a, k, f)))
  {
    hide WellFormed, TopologyOf, Attributable, ExistingLoad, FeederById;
    LoadMeans(c, a, f);
  }

  /** What each permissive of an assessment with the candidate `k` to `f` holds the run to. */
  ghost predicate PermissivesSay(c: Network, a: AssessmentInputs, k: Candidate, f: Feeder, p: Permissives) {
    && p.isolation == (if BoundaryProven(c, a.points, a.fault, a.time) then Pass else Fail)
    && p.alternate == (if AlternateSupplies(c, a, k, f) then Pass else Fail)
    && p.radial == (if RadialNetwork(c, After(a, k), a.sources) then Pass else Fail)
    && p.telemetry == (if EvidenceHolds(c, a) then Pass else Insufficient)
    && p.capacity == (if !Attributable(c, a, f) then Insufficient
                      else if WithinCapacity(c, a, k, f) then Pass else Fail)
  }

  lemma PermissivesAre(c: Network, a: AssessmentInputs, k: Candidate, f: Feeder)
    requires WellFormed(c) && Grounded(c, a) && f in c.feeders && k.sections <= SectionIds(c)
    requires k.alternateFeeder == f.id && k.alternateSource == f.sourceId && k.alternateBreaker == f.breakerId
    ensures PermissivesSay(c, a, k, f, PermissivesOf(c, a, k))
  {
    hide WellFormed, TopologyOf, AlternatePermissive, RadialPermissive, TelemetryPermissive, IsolationPermissive;
    hide CalculationOf, BoundaryProven, AlternateSupplies, RadialNetwork, EvidenceHolds, Attributable, WithinCapacity;
    EvidenceMeans(c, a);
    IsolationMeans(c, a);
    AlternateSuppliesMeans(c, a, k, f);
    RadialMeans(c, a, k);
    CalculationMeans(c, a, k, f);
  }

  /** BLOCKED when the evidence or the load attribution is missing, whatever else holds; REJECTED when they
      are there and some requirement fails; PERMITTED when all hold. */
  ghost predicate OutcomeSays(c: Network, a: AssessmentInputs, k: Candidate, f: Feeder, outcome: Outcome) {
    var reliable := EvidenceHolds(c, a) && Attributable(c, a, f);
    var met := BoundaryProven(c, a.points, a.fault, a.time) && AlternateSupplies(c, a, k, f)
               && RadialNetwork(c, After(a, k), a.sources) && WithinCapacity(c, a, k, f);
    outcome == if !reliable then Blocked else if met then Permitted else Rejected
  }

  /** The telemetry an assessment is bound to: the points of the monitored devices. */
  ghost predicate BoundTelemetry(c: Network, a: AssessmentInputs, telemetry: map<Id, Point>) {
    forall id :: (id in telemetry <==> id in a.points && exists d :: d in c.devices && d.monitored && d.id == id)
                 && (id in telemetry ==> id in a.points && telemetry[id] == a.points[id])
  }

  /** The whole assessment: the least tie that restores anything, its permissives, calculation and outcome, and
      the identity and evidence it is bound to. */
  ghost predicate AssessmentSays(l: Loaded, a: AssessmentInputs, r: Assessment) {
    var c := l.data;
    && r.id == a.id && r.sequence == a.sequence && r.runId == a.runId && r.configurationId == l.configurationId
    && r.revision == a.revision && r.time == a.time && r.sources == a.sources && BoundTelemetry(c, a, r.telemetry)
    && exists fault :: fault in c.sections && fault.id == a.fault
         && if forall d, f | IsTieOf(c, d) :: !Restores(c, a, fault, d.id, f)
            then r.candidate == None && r.permissives == None && r.calculation == None && r.outcome == NoCandidate
            else exists d, f :: && IsTieOf(c, d) && Restores(c, a, fault, d.id, f)
                                && (forall e, g | IsTieOf(c, e) && Restores(c, a, fault, e.id, g) :: IdLeq(d.id, e.id))
                                && Decides(l, a, fault, d.id, f, r)
  }

  ghost predicate Decides(l: Loaded, a: AssessmentInputs, fault: Section, tie: Id, f: Feeder, r: Assessment) {
    && r.candidate.Some? && CandidateMeans(l, a, fault, tie, f, r.candidate.value)
    && r.permissives.Some? && PermissivesSay(l.data, a, r.candidate.value, f, r.permissives.value)
    && r.calculation == (if !Attributable(l.data, a, f) then None
                         else Some(Calculation(ExistingLoad(l.data, a, f), r.candidate.value.transferableKw,
                                               ExistingLoad(l.data, a, f) + r.candidate.value.transferableKw,
                                               f.capacityKw, WithinCapacity(l.data, a, r.candidate.value, f))))
    && OutcomeSays(l.data, a, r.candidate.value, f, r.outcome)
  }

  lemma RequiredAreMonitored(c: Network, a: AssessmentInputs)
    ensures BoundTelemetry(c, a, RequiredPoints(c, a.points))
  {
  }

  lemma OutcomeFollows(c: Network, a: AssessmentInputs, k: Candidate, f: Feeder, p: Permissives)
    requires PermissivesSay(c, a, k, f, p)
    ensures OutcomeSays(c, a, k, f, OutcomeOf(p))
  {
    hide BoundaryProven, AlternateSupplies, RadialNetwork, EvidenceHolds, Attributable, WithinCapacity;
  }

  lemma CandidateSections(l: Loaded, a: AssessmentInputs, fault: Section, tie: Id, f: Feeder, k: Candidate)
    requires CandidateMeans(l, a, fault, tie, f, k) && Restores(l.data, a, fault, tie, f)
    ensures k.sections <= SectionIds(l.data) && f in l.data.feeders
  {
    hide Live, Feeds, OnSourcePath, LoadOf, CustomersOf, Wired;
  }

  lemma AssessDecides(l: Loaded, a: AssessmentInputs, fault: Section, tie: Id, f: Feeder)
    requires WellFormed(l.data) && Grounded(l.data, a) && CandidateOf(l, a).Some?
    requires Restores(l.data, a, fault, tie, f) && CandidateMeans(l, a, fault, tie, f, CandidateOf(l, a).value)
    ensures Decides(l, a, fault, tie, f, Assess(l, a))
  {
    hide WellFormed, CandidateOf, PermissivesOf, PermissivesSay, OutcomeSays, Restores, Attributable, ExistingLoad;
    hide WithinCapacity, CalculationOf, OutcomeOf, RequiredPoints;
    var k := CandidateOf(l, a).value;
    CandidateSections(l, a, fault, tie, f, k);
    PermissivesAre(l.data, a, k, f);
    CalculationMeans(l.data, a, k, f);
    OutcomeFollows(l.data, a, k, f, PermissivesOf(l.data, a, k));
  }

  lemma AssessedFields(l: Loaded, a: AssessmentInputs)
    ensures var r := Assess(l, a);
            && r.id == a.id && r.sequence == a.sequence && r.runId == a.runId && r.configurationId == l.configurationId
            && r.revision == a.revision && r.time == a.time && r.sources == a.sources
            && r.telemetry == RequiredPoints(l.data, a.points) && r.candidate == CandidateOf(l, a)
            && (r.candidate == None ==> r.permissives == None && r.calculation == None && r.outcome == NoCandidate)
  {
    hide CandidateOf, PermissivesOf, CalculationOf, RequiredPoints;
  }

  /** What an assessment made on its own run's topology and outage says. */
  lemma AssessmentMeans(l: Loaded, a: AssessmentInputs)
    requires WellFormed(l.data) && Grounded(l.data, a)
    ensures AssessmentSays(l, a, Assess(l, a))
  {
    hide WellFormed, Assess, CandidateOf, BoundTelemetry, Restores, CandidateMeans, Decides, SectionById, IdLeq;
    GroundedParts(l.data, a);
    AssessedFields(l, a);
    RequiredAreMonitored(l.data, a);
    var fault := FaultSection(l.data, a.fault);
    CandidateIsLeast(l, a, fault);
    if CandidateOf(l, a).Some? {
      var d, f :| IsTieOf(l.data, d) && Restores(l.data, a, fault, d.id, f)
                  && CandidateMeans(l, a, fault, d.id, f, CandidateOf(l, a).value);
      AssessDecides(l, a, fault, d.id, f);
      CandidateTie(l, a, fault, d.id, f, CandidateOf(l, a).value);
    }
  }

  lemma CandidateTie(l: Loaded, a: AssessmentInputs, fault: Section, tie: Id, f: Feeder, k: Candidate)
    requires CandidateMeans(l, a, fault, tie, f, k)
    ensures k.tie == tie
  {
    hide Live, Feeds, OnSourcePath, LoadOf, CustomersOf;
  }

  lemma FaultSection(c: Network, id: Id) returns (fault: Section)
    requires id in SectionIds(c)
    ensures fault in c.sections && fault.id == id
  {
    fault :| fault in c.sections && fault.id == id;
  }
}
