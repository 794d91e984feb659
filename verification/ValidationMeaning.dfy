/** What a validated configuration is, stated record by record without the counters and identifier sets of
    the validator. */
module ValidationMeaning {
  import opened Ids
  import opened Configuration

  ghost predicate IsSource(c: Network, id: Id) { exists s :: s in c.sources && s.id == id }
  ghost predicate IsFeeder(c: Network, id: Id) { exists f :: f in c.feeders && f.id == id }
  ghost predicate IsSection(c: Network, id: Id) { exists s :: s in c.sections && s.id == id }
  ghost predicate IsDevice(c: Network, id: Id) { exists d :: d in c.devices && d.id == id }
  ghost predicate IsTerminal(c: Network, id: Id) { IsSource(c, id) || IsSection(c, id) }

  /** No two entities, of one kind or of different kinds, share an identifier. */
  ghost predicate NoSharedIds(c: Network) {
    && (forall i, j | 0 <= i < j < |c.sources| :: c.sources[i].id != c.sources[j].id)
    && (forall i, j | 0 <= i < j < |c.feeders| :: c.feeders[i].id != c.feeders[j].id)
    && (forall i, j | 0 <= i < j < |c.sections| :: c.sections[i].id != c.sections[j].id)
    && (forall i, j | 0 <= i < j < |c.devices| :: c.devices[i].id != c.devices[j].id)
    && (forall id | IsSource(c, id) :: !IsFeeder(c, id) && !IsSection(c, id) && !IsDevice(c, id))
    && (forall id | IsFeeder(c, id) :: !IsSection(c, id) && !IsDevice(c, id))
    && (forall id | IsSection(c, id) :: !IsDevice(c, id))
  }

  /** The feeder has its source, owns its breaker, and lists exactly its sections and sectionalising switches. */
  ghost predicate FeederComplete(c: Network, f: Feeder) {
    && IsSource(c, f.sourceId)
    && (exists d :: d in c.devices && d.id == f.breakerId && d.kind == FeederSourceBreaker && d.feederId == Some(f.id))
    && (forall id :: id in f.sectionIds <==> exists s :: s in c.sections && s.id == id && s.feederId == f.id)
    && (forall id :: id in f.switchIds <==>
          exists d :: d in c.devices && d.id == id && d.kind == SectionalisingSwitch && d.feederId == Some(f.id))
  }

  /** Every section belongs to a feeder, every device but a tie does, and a tie to none. */
  ghost predicate AllOwned(c: Network) {
    && (forall s | s in c.sections :: IsFeeder(c, s.feederId))
    && (forall d | d in c.devices ::
          if d.kind == TieSwitch then d.feederId == None else d.feederId.Some? && IsFeeder(c, d.feederId.value))
  }

  /** One end of the edge is a device and the other a source or a section. */
  ghost predicate JoinsDevice(c: Network, e: Edge) {
    (IsDevice(c, e.a) && IsTerminal(c, e.b)) || (IsTerminal(c, e.a) && IsDevice(c, e.b))
  }

  /** Exactly two edges meet the device. */
  ghost predicate MetTwice(edges: seq<Edge>, d: Id) {
    exists i, j :: 0 <= i < j < |edges| && Meets(edges[i], d) && Meets(edges[j], d)
      && forall k | 0 <= k < |edges| && Meets(edges[k], d) :: k == i || k == j
  }

  predicate Meets(e: Edge, d: Id) { e.a == d || e.b == d }

  ghost predicate HasZone(c: Network, s: Id) { exists z :: z in c.zones && z.sectionId == s }

  /** Every section has exactly one customer zone; zones are distinct, on configured sections and not empty. */
  ghost predicate ZonesServe(c: Network) {
    && (forall s | s in c.sections :: HasZone(c, s.id))
    && (forall z | z in c.zones :: z.customers > 0 && IsSection(c, z.sectionId))
    && (forall i, j | 0 <= i < j < |c.zones| :: c.zones[i].sectionId != c.zones[j].sectionId)
    && (forall i, j | 0 <= i < j < |c.zones| :: c.zones[i].zoneId != c.zones[j].zoneId)
  }

  ghost predicate Consistent(c: Network) {
    && NoSharedIds(c) && (forall i, j | 0 <= i < j < |c.edges| :: c.edges[i].id != c.edges[j].id)
    && (forall f | f in c.feeders :: FeederComplete(c, f)) && AllOwned(c)
    && (forall e | e in c.edges :: JoinsDevice(c, e)) && (forall d | d in c.devices :: MetTwice(c.edges, d.id))
    && ZonesServe(c)
  }

  // ---------------------------------------------------------------- rule by rule

  function SourceList(c: Network): seq<Id> { seq(|c.sources|, i requires 0 <= i < |c.sources| => c.sources[i].id) }
  function FeederList(c: Network): seq<Id> { seq(|c.feeders|, i requires 0 <= i < |c.feeders| => c.feeders[i].id) }
  function SectionList(c: Network): seq<Id> { seq(|c.sections|, i requires 0 <= i < |c.sections| => c.sections[i].id) }
  function DeviceList(c: Network): seq<Id> { seq(|c.devices|, i requires 0 <= i < |c.devices| => c.devices[i].id) }

  lemma ListsAre(c: Network)
    ensures forall id :: id in SourceList(c) <==> IsSource(c, id)
    ensures forall id :: id in FeederList(c) <==> IsFeeder(c, id)
    ensures forall id :: id in SectionList(c) <==> IsSection(c, id)
    ensures forall id :: id in DeviceList(c) <==> IsDevice(c, id)
  {
    forall x | x in c.sources ensures x.id in SourceList(c) {
      var i :| 0 <= i < |c.sources| && c.sources[i] == x;
      assert SourceList(c)[i] == x.id;
    }
    forall x | x in c.feeders ensures x.id in FeederList(c) {
      var i :| 0 <= i < |c.feeders| && c.feeders[i] == x;
      assert FeederList(c)[i] == x.id;
    }
    forall x | x in c.sections ensures x.id in SectionList(c) {
      var i :| 0 <= i < |c.sections| && c.sections[i] == x;
      assert SectionList(c)[i] == x.id;
    }
    forall x | x in c.devices ensures x.id in DeviceList(c) {
      var i :| 0 <= i < |c.devices| && c.devices[i] == x;
      assert DeviceList(c)[i] == x.id;
    }
  }

  lemma DistinctParts<T>(a: seq<T>, b: seq<T>)
    ensures Distinct(a + b) <==> Distinct(a) && Distinct(b) && forall x | x in a :: x !in b
  {
    if Distinct(a + b) {
      forall i, j | 0 <= i < j < |a| ensures a[i] != a[j] { assert (a + b)[i] == a[i] && (a + b)[j] == a[j]; }
      forall i, j | 0 <= i < j < |b| ensures b[i] != b[j] {
        assert (a + b)[|a| + i] == b[i] && (a + b)[|a| + j] == b[j];
      }
      forall x | x in a ensures x !in b {
        var i :| 0 <= i < |a| && a[i] == x;
        forall j | 0 <= j < |b| ensures b[j] != x { assert (a + b)[i] == x && (a + b)[|a| + j] == b[j]; }
      }
    } else if Distinct(a) && Distinct(b) && forall x | x in a :: x !in b {
      DistinctConcat(a, b);
    }
  }

  lemma UniqueIff(c: Network)
    ensures Satisfies(c, UniqueEntities) <==> NoSharedIds(c)
  {
    var s, f, x, d := SourceList(c), FeederList(c), SectionList(c), DeviceList(c);
    assert EntityIds(c) == s + f + x + d;
    ListsAre(c);
    ListsDistinct(c);
    hide SourceList, FeederList, SectionList, DeviceList, Distinct, IsSource, IsFeeder, IsSection, IsDevice;
    DistinctParts(s + f + x, d);
    DistinctParts(s + f, x);
    DistinctParts(s, f);
    assert forall id :: id in s + f + x <==> id in s || id in f || id in x;
  }

  lemma ListsDistinct(c: Network)
    ensures Distinct(SourceList(c)) <==> forall i, j | 0 <= i < j < |c.sources| :: c.sources[i].id != c.sources[j].id
    ensures Distinct(FeederList(c)) <==> forall i, j | 0 <= i < j < |c.feeders| :: c.feeders[i].id != c.feeders[j].id
    ensures Distinct(SectionList(c)) <==> forall i, j | 0 <= i < j < |c.sections| ::
              c.sections[i].id != c.sections[j].id
    ensures Distinct(DeviceList(c)) <==> forall i, j | 0 <= i < j < |c.devices| :: c.devices[i].id != c.devices[j].id
  {
    assert forall i | 0 <= i < |c.sources| :: c.sources[i].id == SourceList(c)[i];
    assert forall i | 0 <= i < |c.feeders| :: c.feeders[i].id == FeederList(c)[i];
    assert forall i | 0 <= i < |c.sections| :: c.sections[i].id == SectionList(c)[i];
    assert forall i | 0 <= i < |c.devices| :: c.devices[i].id == DeviceList(c)[i];
  }

  lemma FeederIff(c: Network, f: Feeder)
    ensures FeederConsistent(c, f) <==> FeederComplete(c, f)
  {
    var sections, switches := set x | x in f.sectionIds, set x | x in f.switchIds;
    var owned := set s | s in c.sections && s.feederId == f.id :: s.id;
    var placed := set d | d in c.devices && d.feederId == Some(f.id) && d.kind == SectionalisingSwitch :: d.id;
    assert sections == owned <==> forall id :: id in f.sectionIds <==> id in owned;
    assert switches == placed <==> forall id :: id in f.switchIds <==> id in placed;
  }

  lemma OneOf(a: Id, b: Id, S: set<Id>)
    requires a != b
    ensures |{a, b} * S| == 1 <==> (a in S <==> b !in S)
  {
    var I := {a, b} * S;
    if a in S && b in S { assert I == {a, b}; }
    else if a in S { assert I == {a}; }
    else if b in S { assert I == {b}; }
    else { assert I == {}; }
  }

  lemma EdgeIff(c: Network, e: Edge)
    requires NoSharedIds(c)
    ensures EdgeConsistent(c, e) <==> JoinsDevice(c, e)
  {
    assert forall id :: id in DeviceIds(c) <==> IsDevice(c, id);
    assert forall id :: id in TerminalIds(c) <==> IsTerminal(c, id);
    assert forall id :: !(IsDevice(c, id) && IsTerminal(c, id));
    hide DeviceIds, TerminalIds, NoSharedIds, IsDevice, IsTerminal;
    if e.a != e.b {
      OneOf(e.a, e.b, DeviceIds(c));
      OneOf(e.a, e.b, TerminalIds(c));
    }
  }

  lemma ThreeMeet(edges: seq<Edge>, d: Id) returns (x: nat, y: nat, z: nat)
    requires Incidence(edges, d) > 2
    ensures x < y < z < |edges| && Meets(edges[x], d) && Meets(edges[y], d) && Meets(edges[z], d)
  {
    hide Incidence;
    z := IncidenceFind(edges, d);
    y := IncidenceFind(edges[..z], d);
    x := IncidenceFind(edges[..z][..y], d);
  }

  lemma MetIff(edges: seq<Edge>, d: Id)
    ensures Incidence(edges, d) == 2 <==> MetTwice(edges, d)
  {
    hide Incidence;
    if Incidence(edges, d) == 2 {
      var j := IncidenceFind(edges, d);
      var i := IncidenceFind(edges[..j], d);
      forall k | 0 <= k < |edges| && Meets(edges[k], d) ensures k == i || k == j {
        if k < i { IncidenceThree(edges, d, k, i, j); }
        else if i < k < j { IncidenceThree(edges, d, i, k, j); }
        else if j < k { IncidenceThree(edges, d, i, j, k); }
      }
      assert Meets(edges[i], d) && Meets(edges[j], d);
    }
    if MetTwice(edges, d) {
      var i, j :| 0 <= i < j < |edges| && Meets(edges[i], d) && Meets(edges[j], d)
                  && forall k | 0 <= k < |edges| && Meets(edges[k], d) :: k == i || k == j;
      IncidenceTwo(edges, d, i, j);
      if Incidence(edges, d) > 2 { var x, y, z := ThreeMeet(edges, d); }
    }
  }

  lemma ZonesIff(c: Network)
    ensures ZonesConsistent(c) <==> ZonesServe(c)
  {
    var mapped := set z | z in c.zones :: z.sectionId;
    assert forall id :: id in mapped <==> HasZone(c, id);
    assert forall id :: id in SectionIds(c) <==> IsSection(c, id);
    assert mapped == SectionIds(c) <==> forall id :: HasZone(c, id) <==> IsSection(c, id);
  }

  lemma OwnedIff(c: Network)
    ensures Satisfies(c, OwnedSections) && Satisfies(c, OwnedDevices) && Satisfies(c, KnownOwners) <==> AllOwned(c)
  {
    assert forall id :: id in FeederIds(c) <==> IsFeeder(c, id);
    hide EntityIds, FeederConsistent, EdgeConsistent, ZonesConsistent, Incidence, FeederIds, IsFeeder;
  }

  lemma RulesAre(c: Network)
    ensures Validated(c) <==>
              && Satisfies(c, UniqueEntities) && Satisfies(c, UniqueEdges) && Satisfies(c, ConsistentFeeders)
              && Satisfies(c, OwnedSections) && Satisfies(c, OwnedDevices) && Satisfies(c, KnownOwners)
              && Satisfies(c, ConsistentEdges) && Satisfies(c, TwoEdgesPerDevice) && Satisfies(c, ConsistentZones)
  {
    hide Satisfies;
    forall rule | && Satisfies(c, UniqueEntities) && Satisfies(c, UniqueEdges) && Satisfies(c, ConsistentFeeders)
                  && Satisfies(c, OwnedSections) && Satisfies(c, OwnedDevices) && Satisfies(c, KnownOwners)
                  && Satisfies(c, ConsistentEdges) && Satisfies(c, TwoEdgesPerDevice) && Satisfies(c, ConsistentZones)
      ensures Satisfies(c, rule)
    {
      match rule
      case UniqueEntities => case UniqueEdges => case ConsistentFeeders => case OwnedSections => case OwnedDevices =>
      case KnownOwners => case ConsistentEdges => case TwoEdgesPerDevice => case ConsistentZones =>
    }
  }

  /** The configurations the validator accepts are exactly the consistent ones. */
  lemma ValidatedIffConsistent(c: Network)
    ensures Validated(c) <==> Consistent(c)
  {
    RulesAre(c);
    UniqueIff(c);
    OwnedIff(c);
    ZonesIff(c);
    hide Validated, NoSharedIds, FeederComplete, AllOwned, ZonesServe, EntityIds, FeederConsistent, EdgeConsistent;
    hide ZonesConsistent, Incidence, JoinsDevice, MetTwice, Distinct;
    forall f | f in c.feeders ensures FeederConsistent(c, f) <==> FeederComplete(c, f) { FeederIff(c, f); }
    forall d | d in c.devices ensures Incidence(c.edges, d.id) == 2
      <==> MetTwice(c.edges, d.id) { MetIff(c.edges, d.id); }
    if NoSharedIds(c) {
      forall e | e in c.edges ensures EdgeConsistent(c, e) <==> JoinsDevice(c, e) { EdgeIff(c, e); }
    }
  }
}
