/** The run-scoped tables and the row operations the coordinator performs on them. */
module UnitOfWork {
  import opened Ids
  import opened Topology
  import opened Telemetry
  import opened Outage
  import opened Restoration
  import opened Scenario
  import opened Handlers
  import opened Store

  /** A copy of every table, taken when a transaction begins. */
  datatype Rows = Rows(
    order: seq<nat>, runs: map<nat, RunContext>, telemetry: map<nat, map<Id, Point>>, alarms: map<nat, seq<Alarm>>,
    events: map<nat, seq<Event>>, topologies: map<nat, map<nat, TopologyResult>>, outages: map<nat, map<nat,
      OutageResult>>,
    assessments: map<nat, seq<Assessment>>, invalidations: map<nat, seq<Invalidation>>, results: map<nat, Stored>)

  /** Between two states of the store only the rows of one run differ. */
  ghost predicate Only(before: Tables, after: Tables, id: nat) {
    && after.order == before.order && after.results == before.results && after.runs.Keys == before.runs.Keys
    && forall k | k in before.runs && k != id :: after.runs[k] == before.runs[k]
  }

  lemma OnlyMeans(before: Tables, after: Tables, id: nat)
    requires Only(before, after, id) && id in before.runs
    ensures after == before.(runs := before.runs[id := after.runs[id]])
  {
    assert after.runs == before.runs[id := after.runs[id]];
  }

  /** A row of the run table with nothing recorded for it yet. */
  function Bare(run: RunContext): RunRecord { RunRecord(run, map[], [], [], map[], map[], [], []) }

  predicate SequencesFree(events: seq<Event>, more: seq<Event>) {
    && (forall j, k | 0 <= j < |events| && 0 <= k < |more| :: events[j].sequence != more[k].sequence)
    && (forall j, k | 0 <= j < k < |more| :: more[j].sequence != more[k].sequence)
  }

  /** The rows of one run in a table; a run without an entry has none. */
  function SeqAt<T>(table: map<nat, seq<T>>, id: nat): seq<T> { if id in table then table[id] else [] }
  function MapAt<K, V>(table: map<nat, map<K, V>>, id: nat): map<K, V> { if id in table then table[id] else map[] }

  /** The run-scoped tables are keyed by run and refer only to stored runs. Keys and uniqueness
      constraints of the schema are preconditions of the insertions that could break them. */
  class ScenarioUnitOfWork {
    var order: seq<nat>
    var runs: map<nat, RunContext>
    var telemetry: map<nat, map<Id, Point>>
    var alarms: map<nat, seq<Alarm>>
    var events: map<nat, seq<Event>>
    var topologies: map<nat, map<nat, TopologyResult>>
    var outages: map<nat, map<nat, OutageResult>>
    var assessments: map<nat, seq<Assessment>>
    var invalidations: map<nat, seq<Invalidation>>
    var results: map<nat, Stored>

    ghost predicate Valid()
      reads this
    {
      && telemetry.Keys <= runs.Keys && alarms.Keys <= runs.Keys && events.Keys <= runs.Keys
         && topologies.Keys <= runs.Keys
      && outages.Keys <= runs.Keys && assessments.Keys <= runs.Keys && invalidations.Keys <= runs.Keys
    }

    /** Everything recorded for one run. */
    function RecordOf(id: nat): RunRecord
      requires Valid() && id in runs
      reads this
    {
      RunRecord(runs[id], MapAt(telemetry, id), SeqAt(alarms, id), SeqAt(events, id), MapAt(topologies, id),
                MapAt(outages, id),
                SeqAt(assessments, id), SeqAt(invalidations, id))
    }

    ghost function Contents(): Tables
      requires Valid()
      reads this
    {
      Tables(order, map id | id in runs :: RecordOf(id), results)
    }

    constructor ()
      ensures Valid() && Contents() == Tables([], map[], map[])
    {
      order, runs, telemetry, alarms, events := [], map[], map[], map[], map[];
      topologies, outages, assessments, invalidations, results := map[], map[], map[], map[], map[];
    }

    // -------------------------------------------------------------- transactions

    method Save() returns (rows: Rows)
      ensures rows == Rows(order, runs, telemetry, alarms, events, topologies, outages, assessments, invalidations,
                           results)
    {
      rows := Rows(order, runs, telemetry, alarms, events, topologies, outages, assessments, invalidations, results);
    }

    /** Put every table back as it was when `rows` was taken. */
    method Rollback(rows: Rows)
      modifies this
      ensures rows == Rows(order, runs, telemetry, alarms, events, topologies, outages, assessments, invalidations,
                           results)
    {
      order, runs, telemetry, alarms, events := rows.order, rows.runs, rows.telemetry, rows.alarms, rows.events;
      topologies, outages, assessments := rows.topologies, rows.outages, rows.assessments;
      invalidations, results := rows.invalidations, rows.results;
    }

    // -------------------------------------------------------------- runs

    method GetMutableRun() returns (id: Option<nat>)
      requires Valid()
      ensures id == MutableRun(Contents().order, Contents().runs)
    {
      var i := |order|;
      assert order[..i] == order;
      while i > 0
        invariant 0 <= i <= |order|
        invariant MutableRun(order, Contents().runs) == MutableRun(order[..i], Contents().runs)
      {
        i := i - 1;
        assert order[..i + 1][..i] == order[..i];
        if order[i] in runs && runs[order[i]].status != RunClosed { return Some(order[i]); }
      }
      id := None;
    }

    /** The rows of one run. */
    method Read(id: nat) returns (r: RunRecord)
      requires Valid() && id in Contents().runs
      ensures r == Contents().runs[id]
    {
      r := RunRecord(runs[id], MapAt(telemetry, id), SeqAt(alarms, id), SeqAt(events, id), MapAt(topologies, id),
                     MapAt(outages, id),
                     SeqAt(assessments, id), SeqAt(invalidations, id));
    }

    method HasRun(id: nat) returns (found: bool)
      requires Valid()
      ensures found <==> id in Contents().runs
    {
      found := id in runs;
    }

    /** The stored request content and result of a command, if it was used before. */
    method GetCommandResult(commandId: nat) returns (stored: Option<Stored>)
      requires Valid()
      ensures stored == if commandId in Contents().results then Some(Contents().results[commandId]) else None
    {
      stored := if commandId in results then Some(results[commandId]) else None;
    }

    method InsertRun(run: RunContext)
      requires Valid() && run.id !in Contents().runs
      requires run.status != RunClosed ==> forall k | k in Contents().runs :: !Mutable(Contents().runs[k])
      modifies this
      ensures Valid()
      ensures Contents() == old(Contents()).(order := old(Contents()).order + [run.id],
                                             runs := old(Contents()).runs[run.id := Bare(run)])
    {
      order, runs := order + [run.id], runs[run.id := run];
    }

    method UpdateRun(run: RunContext)
      requires Valid() && run.id in Contents().runs
      modifies this
      ensures Valid() && Only(old(Contents()), Contents(), run.id)
      ensures Contents().runs[run.id] == old(Contents()).runs[run.id].(run := run)
    {
      runs := runs[run.id := run];
    }

    // -------------------------------------------------------------- rows of one run

    method PutTelemetry(id: nat, d: Id, point: Point)
      requires Valid() && id in Contents().runs
      modifies this
      ensures Valid() && Only(old(Contents()), Contents(), id)
      ensures Contents().runs[id] == old(Contents()).runs[id].(telemetry :=
              old(Contents()).runs[id].telemetry[d := point])
    {
      telemetry := telemetry[id := MapAt(telemetry, id)[d := point]];
    }

    method InsertAlarm(id: nat, alarm: Alarm)
      requires Valid() && id in Contents().runs && forall k | 0 <= k < |Contents().runs[id].alarms| ::
                 Contents().runs[id].alarms[k].id != alarm.id
      modifies this
      ensures Valid() && Only(old(Contents()), Contents(), id)
      ensures Contents().runs[id] == old(Contents()).runs[id].(alarms := old(Contents()).runs[id].alarms + [alarm])
    {
      alarms := alarms[id := SeqAt(alarms, id) + [alarm]];
    }

    /** Overwrite the alarm with the identifier of `alarm`. */
    method UpdateAlarm(id: nat, alarm: Alarm)
      requires Valid() && id in Contents().runs && AlarmIndex(Contents().runs[id].alarms,
                                                              Some(alarm.id)) < |Contents().runs[id].alarms|
      modifies this
      ensures Valid() && Only(old(Contents()), Contents(), id)
      ensures var rows := old(Contents()).runs[id].alarms; var k := AlarmIndex(rows, Some(alarm.id));
              k < |rows| && Contents().runs[id] == old(Contents()).runs[id].(alarms := rows[k := alarm])
    {
      var rows := SeqAt(alarms, id);
      alarms := alarms[id := rows[AlarmIndex(rows, Some(alarm.id)) := alarm]];
    }

    method InsertEvents(id: nat, more: seq<Event>)
      requires Valid() && id in Contents().runs && SequencesFree(Contents().runs[id].events, more)
      modifies this
      ensures Valid() && Only(old(Contents()), Contents(), id)
      ensures Contents().runs[id] == old(Contents()).runs[id].(events := old(Contents()).runs[id].events + more)
    {
      events := events[id := SeqAt(events, id) + more];
    }

    method InsertTopologySnapshot(id: nat, revision: nat, t: TopologyResult)
      requires Valid() && id in Contents().runs && revision !in Contents().runs[id].topologies
      modifies this`topologies
      ensures Valid() && Only(old(Contents()), Contents(), id)
      ensures var r := old(Contents()).runs[id]; Contents().runs[id] == r.(topologies := r.topologies[revision := t])
    {
      topologies := topologies[id := MapAt(topologies, id)[revision := t]];
    }

    method InsertOutageSnapshot(id: nat, revision: nat, o: OutageResult)
      requires Valid() && id in Contents().runs && revision !in Contents().runs[id].outages
      modifies this`outages
      ensures Valid() && Only(old(Contents()), Contents(), id)
      ensures var r := old(Contents()).runs[id]; Contents().runs[id] == r.(outages := r.outages[revision := o])
    {
      outages := outages[id := MapAt(outages, id)[revision := o]];
    }

    method InsertDerivedSnapshots(id: nat, revision: nat, t: TopologyResult, o: OutageResult)
      requires Valid() && id in Contents().runs && revision !in Contents().runs[id].topologies
               && revision !in Contents().runs[id].outages
      modifies this
      ensures Valid() && Only(old(Contents()), Contents(), id)
      ensures var r := old(Contents()).runs[id];
              Contents().runs[id] == r.(topologies := r.topologies[revision := t], outages := r.outages[revision := o])
    {
      hide ScenarioUnitOfWork.Contents;
      InsertTopologySnapshot(id, revision, t);
      InsertOutageSnapshot(id, revision, o);
    }

    method InsertAssessment(id: nat, a: Assessment)
      requires Valid() && id in Contents().runs
      requires forall k | 0 <= k < |Contents().runs[id].assessments| ::
                 Contents().runs[id].assessments[k].id != a.id
                   && Contents().runs[id].assessments[k].sequence != a.sequence
      modifies this
      ensures Valid() && Only(old(Contents()), Contents(), id)
      ensures Contents().runs[id] == old(Contents()).runs[id].(assessments := old(Contents()).runs[id].assessments
              + [a])
    {
      assessments := assessments[id := SeqAt(assessments, id) + [a]];
    }

    /** An assessment can be invalidated once only. */
    method InsertInvalidation(id: nat, i: Invalidation)
      requires Valid() && id in Contents().runs
      requires forall k | 0 <= k < |Contents().runs[id].invalidations| ::
                 Contents().runs[id].invalidations[k].assessment != i.assessment
      modifies this
      ensures Valid() && Only(old(Contents()), Contents(), id)
      ensures Contents().runs[id] == old(Contents()).runs[id].(invalidations := old(Contents()).runs[id].invalidations
              + [i])
    {
      invalidations := invalidations[id := SeqAt(invalidations, id) + [i]];
    }

    method InsertCommandResult(commandId: nat, runId: nat, content: Content, result: CommandResult)
      requires Valid() && commandId !in Contents().results
      modifies this
      ensures Valid() && Contents() == Keep(old(Contents()), commandId, runId, content, result)
    {
      results := results[commandId := Stored(runId, content, result)];
    }
  }
}
