/** The validation a configuration passes when it is loaded, with its incidence counter. */
module ConfigurationValidator {
  import opened Ids
  import opened Configuration
  import opened ValidationMeaning

  function CountOf(counts: map<Id, nat>, d: Id): nat { if d in counts then counts[d] else 0 }

  lemma IncidenceStep(edges: seq<Edge>, i: nat, d: Id)
    requires i < |edges|
    ensures Incidence(edges[..i + 1], d) == Incidence(edges[..i], d)
            + (if d == edges[i].a || d == edges[i].b then 1 else 0)
  {
    assert edges[..i + 1][..i] == edges[..i];
  }

  predicate JoinsOneOfEach(c: Network, e: Edge) {
    e.a != e.b && |{e.a, e.b} * DeviceIds(c)| == 1 && |{e.a, e.b} * TerminalIds(c)| == 1
  }

  /** Walk the edges once: each must join one device to one source or section, and each device's
      edges are counted on the way. */
  method CountIncidence(c: Network) returns (ok: bool, counts: map<Id, nat>)
    ensures ok <==> forall e | e in c.edges :: EdgeConsistent(c, e)
    ensures ok ==> forall d | d in DeviceIds(c) :: CountOf(counts, d) == Incidence(c.edges, d)
  {
    hide DeviceIds, Incidence, JoinsOneOfEach, EdgeConsistent;
    assert forall e :: JoinsOneOfEach(c, e) == EdgeConsistent(c, e) by { JoinsIsConsistent(c); }
    var devices := DeviceIds(c);
    counts := map[];
    assert forall d :: Incidence(c.edges[..0], d) == 0 by { NoEdgesNoIncidence(c.edges); }
    for i := 0 to |c.edges|
      invariant forall k | 0 <= k < i :: JoinsOneOfEach(c, c.edges[k])
      invariant forall d | d in devices :: CountOf(counts, d) == Incidence(c.edges[..i], d)
    {
      var e := c.edges[i];
      if !JoinsOneOfEach(c, e) { return false, counts; }
      assert e.a != e.b by { EndsDiffer(c, e); }
      forall d ensures Incidence(c.edges[..i + 1], d) == Incidence(c.edges[..i], d)
        + (if d == e.a || d == e.b then 1 else 0) {
        IncidenceStep(c.edges, i, d);
      }
      if e.a in devices { counts := counts[e.a := CountOf(counts, e.a) + 1]; }
      if e.b in devices { counts := counts[e.b := CountOf(counts, e.b) + 1]; }
    }
    assert c.edges[..|c.edges|] == c.edges;
    ok := true;
  }

  lemma JoinsIsConsistent(c: Network)
    ensures forall e :: JoinsOneOfEach(c, e) == EdgeConsistent(c, e)
  {
    hide TerminalIds, DeviceIds;
  }

  lemma EndsDiffer(c: Network, e: Edge)
    requires JoinsOneOfEach(c, e)
    ensures e.a != e.b
  {
  }

  lemma NoEdgesNoIncidence(edges: seq<Edge>)
    ensures forall d :: Incidence(edges[..0], d) == 0
  {
  }

  /** The configuration is accepted exactly when it satisfies every validation rule. */
  method Validate(c: Network) returns (ok: bool)
    ensures ok <==> Validated(c)
    ensures ok <==> Consistent(c)
  {
    ValidatedIffConsistent(c);
    hide Consistent, EntityIds, FeederConsistent, EdgeConsistent, ZonesConsistent, Incidence, Distinct, FeederIds;
    ok := false;
    if !Distinct(EntityIds(c)) { assert !Satisfies(c, UniqueEntities); return; }
    if exists i, j | 0 <= i < j < |c.edges| :: c.edges[i].id == c.edges[j].id
      { assert !Satisfies(c, UniqueEdges); return; }
    if exists f | f in c.feeders :: !FeederConsistent(c, f) { assert !Satisfies(c, ConsistentFeeders); return; }
    if exists s | s in c.sections :: s.feederId !in FeederIds(c) { assert !Satisfies(c, OwnedSections); return; }
    if exists d | d in c.devices :: !(d.kind == TieSwitch <==> d.feederId == None)
      { assert !Satisfies(c, OwnedDevices); return; }
    if exists d | d in c.devices :: d.feederId.Some?
                                    && d.feederId.value !in FeederIds(c) { assert !Satisfies(c, KnownOwners); return; }
    var edgesOk, counts := CountIncidence(c);
    if !edgesOk { assert !Satisfies(c, ConsistentEdges); return; }
    assert forall d | d in c.devices :: d.id in DeviceIds(c);
    if exists d | d in c.devices :: CountOf(counts, d.id) != 2 { assert !Satisfies(c, TwoEdgesPerDevice); return; }
    if !ZonesConsistent(c) { assert !Satisfies(c, ConsistentZones); return; }
    forall rule ensures Satisfies(c, rule) {}
    ok := true;
  }
}
