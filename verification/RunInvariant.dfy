/** What every command keeps about the record of one run. */
module RunInvariant {
  import opened Ids
  import opened Configuration
  import opened Topology
  import opened Outage
  import opened Restoration
  import opened Derivation
  import opened Scenario
  import opened Handlers

  function SwitchStates(r: RunRecord): States { StatesOf(r.telemetry) }

  function LiveOf(c: Network, r: RunRecord): set<Id> { LiveNow(c, r.telemetry, r.run.sources) }

  function Order(n: NetworkState): nat {
    match n case N0 => 0 case N1 => 1 case N2 => 2 case N3 => 3 case N4 => 4 case N5 => 5
  }

  /** Telemetry covers every device, and no observation is newer than the run's own time. */
  ghost predicate Grounding(c: Network, r: RunRecord) {
    && r.run.fault in SectionIds(c)
    && r.telemetry.Keys == DeviceIds(c)
    && r.run.sources.Keys == SourceIds(c)
    && NoFutureEvidence(r.telemetry, r.run.time)
    && (forall d | d in r.telemetry :: r.telemetry[d].quality == Good && r.telemetry[d].updated >= r.run.initialTime)
    && r.run.initialTime <= r.run.time
  }

  /** Where the workflow stands: before the fault telemetry is normal, and until the normal source
      is restored the affected breaker stays open. */
  ghost predicate Workflow(c: Network, r: RunRecord)
    requires Runnable(c, r)
  {
    && (r.run.faultActive <==> r.run.network != N0)
    && (r.run.network == N0 ==> r.telemetry == NormalPoints(c, r.run.initialTime) && r.run.revision == 0
                                && r.alarms == [])
    && (r.run.network != N0 ==> |r.alarms| == 1 && r.alarms[0].active)
    && (r.run.network in {N1, N2} ==> r.telemetry[BreakerId(c, r)].value == Open)
    && (r.run.status != RunClosed ==>
          r.run.status == (match r.run.network case N0 => Initialised case N5 => RunComplete case _ => Active))
  }

  /** One topology and one outage for every revision so far, and the current outage is what the
      current telemetry implies. */
  ghost predicate Cached(c: Network, r: RunRecord) {
    && (forall k: nat :: k in r.outages <==> k <= r.run.revision)
    && (forall k: nat :: k in r.topologies <==> k <= r.run.revision)
    && (forall k | k in r.outages ::
          && r.outages[k].zones == ZonesIn(SortedZones(c), r.outages[k].deEnergised)
          && r.outages[k].affected == Customers(r.outages[k].zones))
    && r.run.revision in r.outages
    && r.outages[r.run.revision].deEnergised == SectionIds(c) - LiveOf(c, r)
  }

  function Deltas(outages: map<nat, OutageResult>, n: nat): nat {
    (if n in outages then outages[n].restoredDelta else 0) + (if n == 0 then 0 else Deltas(outages, n - 1))
  }

  /** Affected customers now plus everything restored so far is the highest affected count seen. */
  ghost predicate Accounted(r: RunRecord) {
    && r.run.revision in r.outages
    && (var peak := r.outages[r.run.revision].affected + Deltas(r.outages, r.run.revision);
        && (forall k | k in r.outages && k <= r.run.revision :: r.outages[k].affected <= peak)
        && (exists k :: k in r.outages && k <= r.run.revision && r.outages[k].affected == peak))
    && (Order(r.run.network) <= 2 ==> Deltas(r.outages, r.run.revision) == 0)
  }

  /** Events are numbered from one without gaps, in order of time and revision. */
  ghost predicate Logged(r: RunRecord) {
    && (forall k | 0 <= k < |r.events| :: r.events[k].sequence == k + 1)
    && (forall j, k | 0 <= j <= k < |r.events| :: r.events[j].time <= r.events[k].time
                                                  && r.events[j].revision <= r.events[k].revision)
    && (forall k | 0 <= k < |r.events| :: r.events[k].time <= r.run.time && r.events[k].revision <= r.run.revision)
  }

  /** The assessment is the one its own inputs give at the time it was made. */
  ghost predicate Faithful(l: Loaded, r: RunRecord, a: Assessment) {
    && a.time <= r.run.time
    && a == Assess(l, InputsFor(l.data, r, a.time, a.id, a.sequence))
    && NoFutureEvidence(r.telemetry, a.time)
  }

  /** The assessments made so far and what has been invalidated. A second assessment exists only
      after the first was invalidated, and from then on the run's evidence no longer permits. */
  ghost predicate AssessedOnce(l: Loaded, r: RunRecord) {
    && (Order(r.run.network) < 4 ==> r.assessments == [] && r.invalidations == [])
    && (Order(r.run.network) >= 4 ==> r.assessments != [])
    && |r.assessments| <= 2
    && (|r.assessments| == 2 ==> r.assessments[0].id != r.assessments[1].id && r.assessments[1].outcome != Permitted)
    && (r.run.network == N5 ==> |r.assessments| == 1)
    && (forall k | 0 <= k < |r.assessments| :: r.assessments[k].time <= r.run.time
                                               && r.assessments[k].runId == r.run.id)
    && (r.run.network == N4 ==> forall k | 0 <= k < |r.assessments| :: Faithful(l, r, r.assessments[k]))
  }

  /** Which assessments are invalidated: in an open run all but the last always, the last one only
      by lost evidence; in a closed run each exactly once. */
  ghost predicate Invalidated(l: Loaded, r: RunRecord) {
    && |r.invalidations| <= |r.assessments|
    && (forall k | 0 <= k < |r.invalidations| :: r.invalidations[k].assessment == r.assessments[k].id)
    && (r.assessments != [] ==> |r.assessments| - 1 <= |r.invalidations|)
    && (|r.invalidations| == 2 ==> r.invalidations[1].reason == ByReset)
    && (r.run.status == RunClosed ==> |r.invalidations| == |r.assessments|)
    && (r.run.status != RunClosed && |r.invalidations| > 0 ==>
          && r.run.network == N4 && |r.invalidations| == 1
          && r.invalidations[0].reason == EvidenceNoLongerCurrent
          && Projection(l, r, r.run.time).outcome != Permitted)
  }

  datatype Clause =
    | GroundingClause | WorkflowClause | CacheClause | AccountClause | LogClause | AssessmentClause
    | InvalidationClause

  ghost predicate Holds(l: Loaded, r: RunRecord, clause: Clause)
    requires Runnable(l.data, r)
  {
    match clause
    case GroundingClause => Grounding(l.data, r)
    case WorkflowClause => Workflow(l.data, r)
    case CacheClause => Cached(l.data, r)
    case AccountClause => Accounted(r)
    case LogClause => Logged(r)
    case AssessmentClause => AssessedOnce(l, r)
    case InvalidationClause => Invalidated(l, r)
  }

  /** The run invariant: every clause holds. */
  ghost predicate RunInv(l: Loaded, r: RunRecord) {
    Runnable(l.data, r) && forall clause :: Holds(l, r, clause)
  }

  lemma RunInvParts(l: Loaded, r: RunRecord)
    requires RunInv(l, r)
    ensures Runnable(l.data, r) && Grounding(l.data, r) && Workflow(l.data, r) && Cached(l.data, r)
    ensures Accounted(r) && Logged(r) && AssessedOnce(l, r) && Invalidated(l, r)
  {
    hide Runnable, Grounding, Workflow, Cached, Accounted, Logged, AssessedOnce, Invalidated;
    assert Holds(l, r, GroundingClause) && Holds(l, r, WorkflowClause) && Holds(l, r, CacheClause)
           && Holds(l, r, AccountClause);
    assert Holds(l, r, LogClause) && Holds(l, r, AssessmentClause) && Holds(l, r, InvalidationClause);
  }
}
