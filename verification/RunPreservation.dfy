/** Every command keeps the run invariant. */
module RunPreservation {
  import opened Ids
  import opened Configuration
  import opened Topology
  import opened Telemetry
  import opened Outage
  import opened Restoration
  import opened Energisation
  import opened TopologyFacts
  import opened Derivation
  import opened ExecutionFacts
  import opened Scenario
  import opened Handlers
  import opened RunInvariant

  // ---------------------------------------------------------------- switching and the outage cache

  lemma OutageNow(c: Network, points: map<Id, Point>, sources: Sources, fault: Option<Id>, time: int,
      previous: Option<OutageResult>)
    requires WellFormed(c)
    ensures OutageOf(c, TopologyAt(c, points, sources, fault, time), previous).deEnergised
            == SectionIds(c) - LiveNow(c, points, sources)
  {
    hide WellFormed, Live, TopologyOf;
    SectionsMean(c, InputsAt(points, sources, fault, time));
  }

  lemma RefreshStates(points: map<Id, Point>, d: Id, value: SwitchState, time: int, revision: nat)
    ensures StatesOf(Refresh(points, d, value, time, revision)) == StatesOf(points)[d := value]
  {
  }

  lemma OpeningShrinks(c: Network, points: map<Id, Point>, sources: Sources, d: Id, time: int, revision: nat)
    ensures LiveNow(c, Refresh(points, d, Open, time, revision), sources) <= LiveNow(c, points, sources)
  {
    hide Live;
    LiveMonotone(c, StatesOf(Refresh(points, d, Open, time, revision)), StatesOf(points), sources);
  }

  lemma ClosingGrows(c: Network, points: map<Id, Point>, sources: Sources, d: Id, time: int, revision: nat)
    ensures LiveNow(c, points, sources) <= LiveNow(c, Refresh(points, d, Closed, time, revision), sources)
  {
    hide Live;
    LiveMonotone(c, StatesOf(points), StatesOf(Refresh(points, d, Closed, time, revision)), sources);
  }

  lemma WellFormedZones(c: Network)
    requires WellFormed(c)
    ensures ZonesConsistent(c)
  {
    assert Satisfies(c, ConsistentZones);
  }

  /** The new revision's outage, and what it restores and newly affects. */
  lemma AdvanceOutage(c: Network, r: RunRecord, run: RunContext, points: map<Id, Point>)
    requires WellFormed(c) && Cached(c, r) && run.revision == r.run.revision + 1
    ensures Cached(c, Advance(c, r, run, points))
    ensures var o := Advance(c, r, run, points).outages[run.revision]; var p := r.outages[r.run.revision];
            && o.restoredDelta == CustomersOf(c.zones, LiveNow(c, points, run.sources) * p.deEnergised)
            && o.affected + o.restoredDelta == p.affected + CustomersOf(c.zones, o.deEnergised - p.deEnergised)
            && o.deEnergised == SectionIds(c) - LiveNow(c, points, run.sources)
  {
    hide WellFormed, TopologyAt, ZonesConsistent, SortedZones, Live, Customers, CustomersOf, ZonesIn, DeEnergised;
    hide CustomersOutside;
    var t := TopologyAt(c, points, run.sources, ActiveFault(run), run.time);
    var p := r.outages[r.run.revision];
    WellFormedZones(c);
    OutageNow(c, points, run.sources, ActiveFault(run), run.time, Some(p));
    OutageMeans(c, t, Some(p), p.deEnergised);
    CustomerBalance(c, t, p, p.deEnergised);
    LiveAreSections(c, points, run.sources);
    assert p.deEnergised - DeEnergised(t) == LiveNow(c, points, run.sources) * p.deEnergised;
  }

  lemma LiveAreSections(c: Network, points: map<Id, Point>, sources: Sources)
    ensures LiveNow(c, points, sources) <= SectionIds(c)
  {
    hide Supply;
  }

  lemma {:induction false} DeltasFrame(outages: map<nat, OutageResult>, o: OutageResult, k: nat, n: nat)
    requires n < k
    ensures Deltas(outages[k := o], n) == Deltas(outages, n)
  {
    if n > 0 { DeltasFrame(outages, o, k, n - 1); }
  }

  /** Opening a device restores nobody. */
  lemma OpeningAccounted(c: Network, r: RunRecord, run: RunContext, points: map<Id, Point>)
    requires WellFormed(c) && Cached(c, r) && Accounted(r) && Order(r.run.network) <= 2
    requires run.revision == r.run.revision + 1 && LiveNow(c, points, run.sources) <= LiveOf(c, r)
    ensures Accounted(Advance(c, r, run, points))
    ensures Advance(c, r, run, points).outages[run.revision].restoredDelta == 0
  {
    hide WellFormed, LiveNow, TopologyAt, OutageOf;
    AdvanceOutage(c, r, run, points);
    var next := Advance(c, r, run, points);
    var o := next.outages[run.revision];
    DeltasFrame(r.outages, o, run.revision, r.run.revision);
    assert LiveNow(c, points, run.sources) * r.outages[r.run.revision].deEnergised == {};
    CustomersOfNobody(c.zones);
    assert Deltas(next.outages, run.revision) == 0;
    assert o.affected >= r.outages[r.run.revision].affected;
    assert run.revision in next.outages && next.outages[run.revision].affected == o.affected;
  }

  /** Closing a device newly affects nobody. */
  /** Closing a device: nobody is newly affected. */
  lemma ClosingBalances(c: Network, r: RunRecord, run: RunContext, points: map<Id, Point>)
    requires WellFormed(c) && Cached(c, r)
    requires run.revision == r.run.revision + 1 && LiveOf(c, r) <= LiveNow(c, points, run.sources)
    ensures run.revision in Advance(c, r, run, points).outages
    ensures var o := Advance(c, r, run, points).outages[run.revision];
            o.affected + o.restoredDelta == r.outages[r.run.revision].affected
  {
    hide WellFormed, LiveNow, TopologyAt, OutageOf;
    AdvanceOutage(c, r, run, points);
    var o, p := Advance(c, r, run, points).outages[run.revision], r.outages[r.run.revision];
    assert o.deEnergised - p.deEnergised == {};
    CustomersOfNobody(c.zones);
  }

  lemma ClosingAccounted(c: Network, r: RunRecord, run: RunContext, points: map<Id, Point>)
    requires WellFormed(c) && Cached(c, r) && Accounted(r) && Order(run.network) > 2
    requires run.revision == r.run.revision + 1 && LiveOf(c, r) <= LiveNow(c, points, run.sources)
    ensures Accounted(Advance(c, r, run, points))
    ensures var o := Advance(c, r, run, points).outages[run.revision];
            o.affected + o.restoredDelta == r.outages[r.run.revision].affected
  {
    hide WellFormed, LiveNow, TopologyAt, OutageOf, Cached, Deltas;
    ClosingBalances(c, r, run, points);
    var next := Advance(c, r, run, points);
    var o, p := next.outages[run.revision], r.outages[r.run.revision];
    DeltasFrame(r.outages, o, run.revision, r.run.revision);
    DeltasNext(next.outages, run.revision);
    var peak := p.affected + Deltas(r.outages, r.run.revision);
    var k :| k in r.outages && k <= r.run.revision && r.outages[k].affected == peak;
    assert k in next.outages && next.outages[k].affected == peak;
    forall j | j in next.outages && j <= run.revision ensures next.outages[j].affected <= peak {
      assert j == run.revision || next.outages[j] == r.outages[j];
    }
  }

  lemma DeltasNext(outages: map<nat, OutageResult>, n: nat)
    requires n > 0 && n in outages
    ensures Deltas(outages, n) == outages[n].restoredDelta + Deltas(outages, n - 1)
  {
  }

  // ---------------------------------------------------------------- the event log

  lemma {:induction false} SequenceIsLength(events: seq<Event>)
    requires forall k | 0 <= k < |events| :: events[k].sequence == k + 1
    ensures MaxSequence(events) == |events|
  {
    if events != [] { SequenceIsLength(events[..|events|-1]); }
  }

  /** Appending events at the run's time and revision keeps the log in order. */
  lemma RecordLogged(r: RunRecord, time: int, revision: nat, command: nat, actor: string, specs: seq<EventSpec>)
    requires forall k | 0 <= k < |r.events| :: r.events[k].sequence == k + 1
    requires forall j, k | 0 <= j <= k < |r.events| :: r.events[j].time <= r.events[k].time
                                                       && r.events[j].revision <= r.events[k].revision
    requires forall k | 0 <= k < |r.events| :: r.events[k].time <= time && r.events[k].revision <= revision
    requires time <= r.run.time && revision <= r.run.revision
    ensures Logged(Record(r, command, actor, specs))
    ensures r.events <= Record(r, command, actor, specs).events
  {
    SequenceIsLength(r.events);
    var next := Record(r, command, actor, specs);
    forall k | 0 <= k < |next.events| ensures next.events[k].sequence == k + 1 {
      if k >= |r.events| { assert next.events[k] == EventsFrom(r.run, |r.events| + 1, command, actor,
        specs)[k - |r.events|]; }
    }
  }

  // ---------------------------------------------------------------- the invariant apart from the log

  ghost predicate CoreInv(l: Loaded, r: RunRecord) {
    && Runnable(l.data, r)
    && Grounding(l.data, r)
    && Workflow(l.data, r)
    && Cached(l.data, r)
    && Accounted(r)
    && AssessedOnce(l, r)
    && Invalidated(l, r)
  }

  lemma CoreIgnoresEvents(l: Loaded, r: RunRecord, events: seq<Event>)
    requires CoreInv(l, r)
    ensures CoreInv(l, r.(events := events))
  {
    hide TopologyAt, Assess, OutageOf, LiveNow, Accounted, Cached, NormalPoints;
    var s := r.(events := events);
    assert LiveOf(l.data, s) == LiveOf(l.data, r);
    SameRunSameInputs(l, r, s);
    assert Cached(l.data, s) by { CacheFrame(l.data, r, s); }
    assert Accounted(s) by { AccountFrame(r, s); }
  }

  lemma CacheFrame(c: Network, r: RunRecord, s: RunRecord)
    requires Cached(c, r) && s.outages == r.outages && s.topologies == r.topologies && s.telemetry == r.telemetry
    requires s.run.revision == r.run.revision && s.run.sources == r.run.sources
    ensures Cached(c, s)
  {
    hide LiveNow;
  }

  lemma AccountFrame(r: RunRecord, s: RunRecord)
    requires Accounted(r) && s.outages == r.outages && s.run.revision == r.run.revision
    requires Order(s.run.network) <= 2 ==> Order(r.run.network) <= 2
    ensures Accounted(s)
  {
  }

  /** What an assessment of the run depends on. */
  ghost predicate SameEvidence(r: RunRecord, s: RunRecord) {
    && s.telemetry == r.telemetry && s.run.sources == r.run.sources && s.run.fault == r.run.fault
    && s.run.faultActive == r.run.faultActive && s.run.id == r.run.id && s.run.revision == r.run.revision
  }

  lemma SameRunSameInputs(l: Loaded, r: RunRecord, s: RunRecord)
    requires SameEvidence(r, s)
    ensures forall time, id, sequence :: InputsFor(l.data, s, time, id, sequence)
                                         == InputsFor(l.data, r, time, id, sequence)
    ensures forall time :: Projection(l, s, time) == Projection(l, r, time)
  {
    hide TopologyAt, Assess, OutageOf;
  }
}
