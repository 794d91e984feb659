/** Which boundary may be opened next, said of the procedure and of the evidence. */
module IsolationOrder {
  import opened Ids
  import opened Configuration
  import opened Topology
  import opened Telemetry
  import opened TopologyFacts
  import opened Derivation
  import opened Scenario
  import opened Handlers
  import opened RunSteps
  import opened Waiting

  // ---------------------------------------------------------------- the order of the procedure

  /** `k` is the last place of the device in the procedure, or past every entry when it is not listed. */
  ghost predicate Placed(sequence: seq<Id>, d: Id, k: nat) {
    if d in sequence
    then k < |sequence| && sequence[k] == d && forall j | k < j < |sequence| :: sequence[j] != d
    else k == |set x | x in sequence|
  }

  /** FORMAL order: the earlier place first, and of two devices in one place the lesser identifier. */
  ghost predicate Precedes(sequence: seq<Id>, x: Id, y: Id) {
    exists i, j :: Placed(sequence, x, i) && Placed(sequence, y, j) && (i < j || (i == j && IdLeq(x, y)))
  }

  lemma {:induction false} IndexIsPlace(sequence: seq<Id>, d: Id)
    ensures forall k :: Placed(sequence, d, k) <==> k == IndexIn(sequence, d)
  {
    if d in sequence && sequence[|sequence|-1] != d {
      var n := |sequence| - 1;
      assert d in sequence[..n] by { var j :| 0 <= j < |sequence| && sequence[j] == d; assert sequence[..n][j] == d; }
      IndexIsPlace(sequence[..n], d);
      forall k ensures Placed(sequence, d, k) <==> Placed(sequence[..n], d, k) {
      }
    }
  }

  lemma PrecedesMeans(sequence: seq<Id>, x: Id, y: Id)
    ensures ProcedureLeq(sequence, x, y) <==> Precedes(sequence, x, y)
  {
    hide IdLeq, Placed, IndexIn;
    IndexIsPlace(sequence, x);
    IndexIsPlace(sequence, y);
    assert Placed(sequence, x, IndexIn(sequence, x)) && Placed(sequence, y, IndexIn(sequence, y));
  }

  lemma ProcedureTotal(sequence: seq<Id>)
    ensures TotalPreorder(ProcedureOrder(sequence))
    ensures forall x, y | ProcedureLeq(sequence, x, y) && ProcedureLeq(sequence, y, x) :: x == y
  {
    hide IdLeq, IndexIn;
    IdOrder();
    var leq := ProcedureOrder(sequence);
    forall x, y ensures leq(x, y) || leq(y, x) { assert IdLeq(x, y) || IdLeq(y, x); }
    forall x, y, z | leq(x, y) && leq(y, z) ensures leq(x, z) { assert IdLeq(x, y) && IdLeq(y, z) ==> IdLeq(x, z); }
  }

  // ---------------------------------------------------------------- the next target of the procedure

  /** The search stops at the first device that is not proven open. */
  lemma {:induction false} NextTargetIsFirst(ordered: seq<Id>, boundaries: seq<Id>, o: map<Id, Observation>)
      returns (n: nat)
    requires forall d | d in ordered :: d in boundaries
    ensures n <= |ordered| && forall j | 0 <= j < n :: StatusOf(ObservationOf(o, ordered[j])) == ProvenOpen
    ensures n < |ordered| ==> StatusOf(ObservationOf(o, ordered[n])) != ProvenOpen
    ensures NextTarget(ordered, Evaluations(boundaries, o))
            == if n < |ordered| && StatusOf(ObservationOf(o, ordered[n])) == ProvenClosed
              then Some(ordered[n]) else None
  {
    hide Evaluations, StatusOf, EvaluationOf, ObservationOf;
    if ordered == [] {
      n := 0;
      return;
    }
    assert ordered[0] in ordered;
    EvaluationOfListed(boundaries, o, ordered[0]);
    if StatusOf(ObservationOf(o, ordered[0])) != ProvenOpen {
      n := 0;
    } else {
      assert forall d | d in ordered[1..] :: d in ordered;
      var m := NextTargetIsFirst(ordered[1..], boundaries, o);
      n := m + 1;
      forall j | 0 <= j < n ensures StatusOf(ObservationOf(o, ordered[j])) == ProvenOpen {
        if j > 0 { assert ordered[j] == ordered[1..][j - 1]; }
      }
    }
  }

  /** The device is proven closed, and comes first among those that are not proven open. */
  ghost predicate FirstToOpen(sequence: seq<Id>, boundaries: set<Id>, o: map<Id, Observation>, d: Id) {
    && d in boundaries && StatusOf(ObservationOf(o, d)) == ProvenClosed
    && forall y | y in boundaries && StatusOf(ObservationOf(o, y)) != ProvenOpen :: ProcedureLeq(sequence, d, y)
  }

  lemma NextTargetMeans(def: Definition, boundaries: seq<Id>, members: set<Id>, o: map<Id, Observation>, d: Id)
    requires forall x :: x in boundaries <==> x in members
    ensures NextTarget(OrderedBoundaries(def, Formal, boundaries), Evaluations(boundaries, o)) == Some(d)
            <==> FirstToOpen(def.sequence, members, o, d)
  {
    hide Evaluations, StatusOf, EvaluationOf, ObservationOf, Sort, ProcedureLeq;
    var leq, ordered := ProcedureOrder(def.sequence), OrderedBoundaries(def, Formal, boundaries);
    OrderedMembers(def, Formal, boundaries);
    ProcedureTotal(def.sequence);
    SortSorted(boundaries, leq);
    assert forall x :: x in ordered <==> x in members;
    var n := NextTargetIsFirst(ordered, boundaries, o);
    forall y | y in members && StatusOf(ObservationOf(o, y)) != ProvenOpen
      ensures n < |ordered| && ProcedureLeq(def.sequence, ordered[n], y)
    {
      var j :| 0 <= j < |ordered| && ordered[j] == y;
      assert j >= n;
      assert leq(ordered[n], ordered[n]) && leq(ordered[n], ordered[j]);
    }
    if FirstToOpen(def.sequence, members, o, d) {
      assert ordered[n] in members && ProcedureLeq(def.sequence, d, ordered[n]);
    }
  }

  // ---------------------------------------------------------------- when a boundary may be opened

  /** Observed in this state on good evidence of the last minute. */
  predicate ObservedAs(points: map<Id, Point>, d: Id, value: SwitchState, time: int) {
    d in points && points[d].value == value && Trustworthy(points[d], time)
  }

  /** An OPEN of `d` is allowed: before isolation, on a boundary of the fault that is observed closed, in FORMAL
      the first in procedure order of those not observed open. */
  ghost predicate MayOpen(c: Network, def: Definition, r: RunRecord, d: Id, time: int) {
    && r.run.network == N1 && d in BoundarySet(c, r.run.fault) && ObservedAs(r.telemetry, d, Closed, time)
    && (r.run.mode == Formal ==>
          forall y | y in BoundarySet(c, r.run.fault) && !ObservedAs(r.telemetry, y, Open, time) ::
            Precedes(def.sequence, d, y))
  }

  lemma ObservedMeans(points: map<Id, Point>, d: Id, time: int)
    ensures StatusAt(points, d, time) == ProvenOpen <==> ObservedAs(points, d, Open, time)
    ensures StatusAt(points, d, time) == ProvenClosed <==> ObservedAs(points, d, Closed, time)
  {
    hide Classify, StatusAt;
    StatusMeans(points, d, time);
    if d in points { TrustworthyMeans(points[d], time); }
  }

  lemma FirstToOpenMeans(c: Network, sequence: seq<Id>, fault: Id, points: map<Id, Point>, d: Id, time: int)
    ensures FirstToOpen(sequence, BoundarySet(c, fault), ObservationsAt(points, time), d) <==>
              && d in BoundarySet(c, fault) && ObservedAs(points, d, Closed, time)
              && forall y | y in BoundarySet(c, fault) && !ObservedAs(points, y, Open, time) :: Precedes(sequence, d, y)
  {
    hide BoundarySet, ObservedAs, StatusOf, ObservationsAt, ObservationOf, ProcedureLeq, Precedes;
    forall y
      ensures StatusOf(ObservationOf(ObservationsAt(points, time), y)) == ProvenOpen
              <==> ObservedAs(points, y, Open, time)
      ensures StatusOf(ObservationOf(ObservationsAt(points, time), y)) == ProvenClosed
              <==> ObservedAs(points, y, Closed, time)
      ensures ProcedureLeq(sequence, d, y) <==> Precedes(sequence, d, y)
    {
      ObservedMeans(points, y, time);
      PrecedesMeans(sequence, d, y);
    }
  }

  /** The gate of OPERATE_ISOLATION_DEVICE in both modes. */
  lemma TargetMeans(c: Network, def: Definition, r: RunRecord, d: Id, time: int)
    requires r.run.faultActive
    ensures TargetAvailable(def, r.run, GateTopology(c, r, time), Some(d)) <==> MayOpen(c, def, r, d, time)
  {
    hide Evaluations, Boundaries, TopologyAt, OrderedBoundaries, NextTarget, EvaluationOf, FirstEvaluationOf;
    hide ObservationsAt, StatusOf, ObservedAs, FirstToOpen, Precedes, BoundarySet;
    GateProof(c, r, time);
    var boundaries, o := Boundaries(c, r.run.fault), ObservationsAt(r.telemetry, time);
    BoundaryMembers(c, r.run.fault);
    if r.run.mode == Exploration {
      ObservedMeans(r.telemetry, d, time);
      if d in boundaries { FirstEvaluationOfListed(boundaries, o, d); }
    } else {
      NextTargetMeans(def, boundaries, BoundarySet(c, r.run.fault), o, d);
      FirstToOpenMeans(c, def.sequence, r.run.fault, r.telemetry, d, time);
    }
  }
}
