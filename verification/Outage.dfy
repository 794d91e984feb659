/** Customer consequence of de-energised sections, and the accounting between two outages. */
module Outage {
  import opened Ids
  import opened Configuration
  import opened Topology

  datatype OutageResult = OutageResult(deEnergised: set<Id>, zones: seq<ZoneMapping>, affected: nat, restoredDelta: nat)

  predicate ZoneLeq(x: ZoneMapping, y: ZoneMapping) { IdLeq(x.sectionId, y.sectionId) }

  function SortedZones(c: Network): seq<ZoneMapping> { Sort(c.zones, ZoneLeq) }

  function DeEnergised(t: TopologyResult): set<Id> { set s | s in t.sections && !t.sections[s].energised }

  function ZonesIn(zones: seq<ZoneMapping>, ids: set<Id>): seq<ZoneMapping> {
    if zones == [] then []
    else (if zones[0].sectionId in ids then [zones[0]] else []) + ZonesIn(zones[1..], ids)
  }

  function Customers(zones: seq<ZoneMapping>): nat {
    if zones == [] then 0 else zones[0].customers + Customers(zones[1..])
  }

  function ZoneKeys(zones: seq<ZoneMapping>): set<(Id, Id)> { set z | z in zones :: (z.sectionId, z.zoneId) }

  /** The customers of `zones` whose zone is not among `keys`. */
  function CustomersOutside(zones: seq<ZoneMapping>, keys: set<(Id, Id)>): nat {
    if zones == [] then 0
    else
      (if (zones[0].sectionId, zones[0].zoneId) in keys then 0 else zones[0].customers)
        + CustomersOutside(zones[1..], keys)
  }

  function OutageOf(c: Network, t: TopologyResult, previous: Option<OutageResult>): OutageResult {
    var zones := ZonesIn(SortedZones(c), DeEnergised(t));
    OutageResult(
      DeEnergised(t), zones, Customers(zones),
      match previous case None => 0 case Some(p) => CustomersOutside(p.zones, ZoneKeys(zones)))
  }

  // ---------------------------------------------------------------- accounting

  /** The customers in the zones of the sections `ids`. */
  function CustomersOf(zones: seq<ZoneMapping>, ids: set<Id>): nat {
    if zones == [] then 0
    else (if zones[0].sectionId in ids then zones[0].customers else 0) + CustomersOf(zones[1..], ids)
  }

  lemma {:induction false} CustomersOfZonesIn(zones: seq<ZoneMapping>, ids: set<Id>)
    ensures Customers(ZonesIn(zones, ids)) == CustomersOf(zones, ids)
  {
    if zones != [] {
      CustomersOfZonesIn(zones[1..], ids);
      if zones[0].sectionId in ids {
        assert ZonesIn(zones, ids)[1..] == ZonesIn(zones[1..], ids);
      } else {
        assert ZonesIn(zones, ids) == ZonesIn(zones[1..], ids);
      }
    }
  }

  lemma {:induction false} ZonesInMembers(zones: seq<ZoneMapping>, ids: set<Id>)
    ensures forall z :: z in ZonesIn(zones, ids) <==> z in zones && z.sectionId in ids
  {
    if zones != [] {
      ZonesInMembers(zones[1..], ids);
      assert zones == [zones[0]] + zones[1..];
    }
  }

  /** Zones are listed in the order of their sections. */
  lemma {:induction false} ZonesInSorted(zones: seq<ZoneMapping>, ids: set<Id>)
    requires SortedBy(zones, ZoneLeq)
    ensures SortedBy(ZonesIn(zones, ids), ZoneLeq)
  {
    hide IdLeq;
    if zones != [] {
      ZonesInSorted(zones[1..], ids);
      var rest := ZonesIn(zones[1..], ids);
      ZonesInMembers(zones[1..], ids);
      forall i | 0 <= i < |rest| ensures ZoneLeq(zones[0], rest[i]) {
        assert rest[i] in zones[1..];
        var k :| 0 < k < |zones| && zones[k] == rest[i];
      }
    }
  }

  lemma ZonesSorted(c: Network)
    ensures SortedBy(SortedZones(c), ZoneLeq)
  {
    hide IdLeq;
    IdOrder();
    SortSorted(c.zones, ZoneLeq);
  }

  lemma {:induction false} CustomersOfUnion(zones: seq<ZoneMapping>, A: set<Id>, B: set<Id>)
    requires A !! B
    ensures CustomersOf(zones, A + B) == CustomersOf(zones, A) + CustomersOf(zones, B)
  {
    if zones != [] { CustomersOfUnion(zones[1..], A, B); }
  }

  lemma {:induction false} CustomersOfInsert(z: ZoneMapping, zones: seq<ZoneMapping>, ids: set<Id>)
    ensures CustomersOf(Insert(z, zones, ZoneLeq), ids) == CustomersOf([z], ids) + CustomersOf(zones, ids)
  {
    if zones == [] || ZoneLeq(z, zones[0]) {
      assert ([z] + zones)[1..] == zones;
    } else {
      CustomersOfInsert(z, zones[1..], ids);
    }
  }

  lemma {:induction false} CustomersOfSorted(zones: seq<ZoneMapping>, ids: set<Id>)
    ensures CustomersOf(Sort(zones, ZoneLeq), ids) == CustomersOf(zones, ids)
  {
    if zones != [] {
      CustomersOfSorted(zones[1..], ids);
      CustomersOfInsert(zones[0], Sort(zones[1..], ZoneLeq), ids);
    }
  }

  /** `keys` names exactly the zones of `zones` whose section is in `ids`. */
  lemma {:induction false} OutsideIsDifference(zones: seq<ZoneMapping>, A: set<Id>, B: set<Id>, keys: set<(Id, Id)>)
    requires forall z | z in zones :: (z.sectionId, z.zoneId) in keys <==> z.sectionId in B
    ensures CustomersOutside(ZonesIn(zones, A), keys) == CustomersOf(zones, A - B)
  {
    if zones != [] {
      assert zones[0] in zones && forall z | z in zones[1..] :: z in zones;
      OutsideIsDifference(zones[1..], A, B, keys);
      if zones[0].sectionId in A {
        assert ZonesIn(zones, A)[1..] == ZonesIn(zones[1..], A);
      } else {
        assert ZonesIn(zones, A) == ZonesIn(zones[1..], A);
      }
    }
  }

  lemma ZoneKeysOfSections(c: Network, ids: set<Id>)
    requires ZonesConsistent(c)
    ensures forall z | z in SortedZones(c) ::
              (z.sectionId, z.zoneId) in ZoneKeys(ZonesIn(SortedZones(c), ids)) <==> z.sectionId in ids
  {
    hide Sort;
    SortElements(c.zones, ZoneLeq);
    ZonesInMembers(SortedZones(c), ids);
  }

  /** The outage in terms of sections: who is affected, and whose supply came back. */
  lemma OutageMeans(c: Network, t: TopologyResult, previous: Option<OutageResult>, before: set<Id>)
    requires ZonesConsistent(c)
    requires previous.Some? ==> previous.value.zones == ZonesIn(SortedZones(c), before)
    ensures OutageOf(c, t, previous).affected == CustomersOf(c.zones, DeEnergised(t))
    ensures OutageOf(c, t, previous).restoredDelta ==
            if previous.Some? then CustomersOf(c.zones, before - DeEnergised(t)) else 0
  {
    hide Sort, SortedZones, ZonesConsistent;
    var Z, now := SortedZones(c), DeEnergised(t);
    CustomersOfZonesIn(Z, now);
    SortedCustomers(c, now);
    SortedCustomers(c, before - now);
    ZoneKeysOfSections(c, now);
    OutsideIsDifference(Z, before, now, ZoneKeys(ZonesIn(Z, now)));
  }

  lemma SortedCustomers(c: Network, ids: set<Id>)
    ensures CustomersOf(SortedZones(c), ids) == CustomersOf(c.zones, ids)
  {
    CustomersOfSorted(c.zones, ids);
  }

  /** Affected now plus restored is affected before plus newly affected. */
  lemma CustomerBalance(c: Network, t: TopologyResult, previous: OutageResult, before: set<Id>)
    requires ZonesConsistent(c) && previous.zones == ZonesIn(SortedZones(c), before)
    requires previous.affected == Customers(previous.zones)
    ensures var now := OutageOf(c, t, Some(previous));
            now.affected + now.restoredDelta == previous.affected + CustomersOf(c.zones, DeEnergised(t) - before)
  {
    hide ZonesConsistent, SortedZones;
    OutageMeans(c, t, Some(previous), before);
    CustomersOfZonesIn(SortedZones(c), before);
    SortedCustomers(c, before);
    var D := DeEnergised(t);
    CustomersOfUnion(c.zones, before * D, before - D);
    CustomersOfUnion(c.zones, before * D, D - before);
    assert before * D + (before - D) == before && before * D + (D - before) == D;
  }
}
