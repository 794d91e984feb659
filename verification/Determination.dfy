/** Criterion findings of one frozen determination context: completeness, verdict, and their history. */
module Determination {
  import opened Ids

  datatype Kind = MachineComparison | EngineeringReview
  datatype Criterion = Criterion(id: Id, kind: Kind)
  datatype Status = NotEvaluated | Satisfied | NotSatisfied
  datatype Finding = Finding(criterion: Id, status: Status)
  datatype Verdict = Pass | Fail
  datatype Role = GraduateEngineer | IndependentReviewer | OtherRole

  /** What the frozen sources say about one machine criterion: the adapter failed, or the values it
      found, each compared with the expected one. */
  datatype Compared = Matches | Differs | CannotNormalise
  datatype Resolution = AdapterFailed | Values(values: seq<Compared>)

  datatype Proposal = Proposal(criterion: Id, proposer: string)

  datatype Context = Context(
    criteria: seq<Criterion>, findings: seq<Finding>, proposals: map<nat, Proposal>, reviewed: set<nat>,
      result: Option<Verdict>)

  function Required(criteria: seq<Criterion>): set<Id> { set c | c in criteria :: c.id }
  function Found(findings: seq<Finding>): set<Id> { set f | f in findings :: f.criterion }
  function Evaluated(findings: seq<Finding>): set<Id>
    { set f | f in findings && f.status != NotEvaluated :: f.criterion }

  function CriteriaOf(findings: seq<Finding>): seq<Id>
    { seq(|findings|, k requires 0 <= k < |findings| => findings[k].criterion) }

  function Times(findings: seq<Finding>, id: Id): nat {
    if findings == [] then 0 else (if findings[0].criterion == id then 1 else 0) + Times(findings[1..], id)
  }

  /** COMPLETE: nothing missing, no required criterion twice, and as many findings as criteria. */
  predicate Complete(criteria: seq<Criterion>, findings: seq<Finding>) {
    && Required(criteria) - Evaluated(findings) == {}
    && (forall id | id in Required(criteria) :: Times(findings, id) <= 1)
    && |findings| == |Required(criteria)|
  }

  function VerdictOf(findings: seq<Finding>): Verdict {
    if exists f | f in findings :: f.status == NotSatisfied then Fail else Pass
  }

  // ---------------------------------------------------------------- what COMPLETE and the verdict mean

  lemma {:induction false} TimesIsMultiplicity(findings: seq<Finding>, id: Id)
    ensures Times(findings, id) == multiset(CriteriaOf(findings))[id]
  {
    if findings != [] {
      TimesIsMultiplicity(findings[1..], id);
      assert CriteriaOf(findings) == [findings[0].criterion] + CriteriaOf(findings[1..]);
    }
  }

  lemma CriteriaFound(findings: seq<Finding>)
    ensures forall id :: id in CriteriaOf(findings) <==> id in Found(findings)
    ensures forall id :: multiset(CriteriaOf(findings))[id] > 0 <==> id in Found(findings)
    ensures Evaluated(findings) <= Found(findings)
  {
    forall k | 0 <= k < |findings| ensures findings[k].criterion in CriteriaOf(findings) {
      assert CriteriaOf(findings)[k] == findings[k].criterion;
    }
    forall id ensures multiset(CriteriaOf(findings))[id] > 0 <==> id in CriteriaOf(findings) {
      assert id in multiset(CriteriaOf(findings)) <==> id in CriteriaOf(findings);
    }
  }

  lemma NoneMissing(criteria: seq<Criterion>, findings: seq<Finding>)
    requires Complete(criteria, findings)
    ensures Required(criteria) <= Evaluated(findings)
  {
    forall id | id in Required(criteria) ensures id in Evaluated(findings)
      { assert id !in Required(criteria) - Evaluated(findings); }
  }

  lemma ContainedAndAsMany<T>(a: multiset<T>, b: multiset<T>)
    requires a <= b && |a| == |b|
    ensures a == b
  {
    assert b == a + (b - a);
  }

  /** COMPLETE holds exactly when the findings are a permutation of the required criteria and none of
      them is NOT_EVALUATED. */
  lemma CompleteIffPermutation(criteria: seq<Criterion>, findings: seq<Finding>)
    ensures Complete(criteria, findings) <==>
              && multiset(CriteriaOf(findings)) == multiset(Required(criteria))
              && forall f | f in findings :: f.status != NotEvaluated
  {
    var ids := multiset(CriteriaOf(findings));
    CriteriaFound(findings);
    forall id ensures Times(findings, id) == ids[id] { TimesIsMultiplicity(findings, id); }
    if Complete(criteria, findings) {
      NoneMissing(criteria, findings);
      assert multiset(Required(criteria)) <= ids;
      ContainedAndAsMany(multiset(Required(criteria)), ids);
      forall f | f in findings ensures f.status != NotEvaluated { SoleFinding(criteria, findings, f); }
    }
    if ids == multiset(Required(criteria)) && forall f | f in findings :: f.status != NotEvaluated {
      assert |findings| == |ids| == |Required(criteria)|;
      forall id | id in Required(criteria) ensures id in Evaluated(findings) && ids[id] == 1 {
        assert id in multiset(Required(criteria)) && id in Found(findings);
      }
    }
  }

  /** A required criterion found once is evaluated by that very finding. */
  lemma SoleFinding(criteria: seq<Criterion>, findings: seq<Finding>, f: Finding)
    requires Complete(criteria, findings) && f in findings
             && multiset(CriteriaOf(findings)) == multiset(Required(criteria))
    ensures f.status != NotEvaluated
  {
    CriteriaFound(findings);
    NoneMissing(criteria, findings);
    assert f.criterion in multiset(Required(criteria));
    var g :| g in findings && g.status != NotEvaluated && g.criterion == f.criterion;
    var i :| 0 <= i < |findings| && findings[i] == f;
    var j :| 0 <= j < |findings| && findings[j] == g;
    if i < j { TwiceFound(findings, i, j); }
    if j < i { TwiceFound(findings, j, i); }
  }

  lemma {:induction false} FoundOnce(findings: seq<Finding>, i: nat)
    requires i < |findings|
    ensures Times(findings, findings[i].criterion) >= 1
  {
    if i > 0 { FoundOnce(findings[1..], i - 1); }
  }

  lemma {:induction false} TwiceFound(findings: seq<Finding>, i: nat, j: nat)
    requires i < j < |findings| && findings[i].criterion == findings[j].criterion
    ensures Times(findings, findings[i].criterion) >= 2
  {
    if i > 0 { TwiceFound(findings[1..], i - 1, j - 1); }
    else { FoundOnce(findings[1..], j - 1); }
  }

  lemma FoundAreRequired(criteria: seq<Criterion>, findings: seq<Finding>)
    requires Complete(criteria, findings)
    ensures forall f | f in findings :: f.criterion in Required(criteria)
  {
    CompleteIffPermutation(criteria, findings);
    CriteriaFound(findings);
    forall f | f in findings ensures f.criterion in Required(criteria) {
      assert f.criterion in Found(findings) && f.criterion in multiset(Required(criteria));
    }
  }

  lemma SatisfiedIsSole(criteria: seq<Criterion>, findings: seq<Finding>, f: Finding)
    requires Complete(criteria, findings) && f in findings && f.criterion in Required(criteria)
             && Finding(f.criterion, Satisfied) in findings
    ensures f.status == Satisfied
  {
    var i :| 0 <= i < |findings| && findings[i] == f;
    var j :| 0 <= j < |findings| && findings[j] == Finding(f.criterion, Satisfied);
    if i < j { TwiceFound(findings, i, j); }
    if j < i { TwiceFound(findings, j, i); }
  }

  /** With complete findings PASS means that every criterion is satisfied, and FAIL that some is not. */
  lemma PassIffAllSatisfied(criteria: seq<Criterion>, findings: seq<Finding>)
    requires Complete(criteria, findings)
    ensures VerdictOf(findings) == Pass <==> forall f | f in findings :: f.status == Satisfied
    ensures VerdictOf(findings) == Pass <==> forall id | id in Required(criteria) :: Finding(id, Satisfied) in findings
  {
    FoundAreRequired(criteria, findings);
    CompleteIffPermutation(criteria, findings);
    NoneMissing(criteria, findings);
    hide Complete, Times;
    forall f | f in findings && Finding(f.criterion, Satisfied) in findings ensures f.status == Satisfied {
      SatisfiedIsSole(criteria, findings, f);
    }
    if forall f | f in findings :: f.status == Satisfied {
      forall id | id in Required(criteria) ensures Finding(id, Satisfied) in findings {
        var f :| f in findings && f.criterion == id;
        assert f == Finding(id, Satisfied);
      }
    }
  }

  // ---------------------------------------------------------------- operations on one context

  /** The status one machine criterion gets, or none when its evaluation raises. */
  function StatusFor(resolution: Resolution): Option<Status> {
    match resolution
    case AdapterFailed => None
    case Values(values) =>
      if |values| != 1 then Some(NotEvaluated)
      else
        match values[0]
        case Matches => Some(Satisfied)
        case Differs => Some(NotSatisfied)
        case CannotNormalise => None
  }

  /** Findings added by evaluating `criteria` in order, skipping what was found before; evaluation stops
      at the first criterion that raises or whose finding cannot be inserted. */
  function Evaluation(criteria: seq<Criterion>, existing: set<Id>, sofar: set<Id>, closed: bool, resolve: map<Id,
      Resolution>): (seq<Finding>, bool)
    decreases |criteria|
  {
    if criteria == [] then ([], true)
    else
      var c := criteria[0];
      if c.kind != MachineComparison || c.id in existing
        then Evaluation(criteria[1..], existing, sofar, closed, resolve)
      else if c.id !in resolve || StatusFor(resolve[c.id]).None? || c.id in sofar || closed then ([], false)
      else
        var (more, ok) := Evaluation(criteria[1..], existing, sofar + {c.id}, closed, resolve);
        ([Finding(c.id, StatusFor(resolve[c.id]).value)] + more, ok)
  }

  datatype Operation =
    | EvaluateMachine(resolve: map<Id, Resolution>)
    | Propose(id: nat, criterion: Id, actor: string, role: Role, hasEvidence: bool)
    | FinaliseReview(proposal: nat, actor: string, role: Role, satisfied: bool)
    | FinaliseResult(hasEvidence: bool)

  predicate IsReview(criteria: seq<Criterion>, id: Id)
    { exists c | c in criteria :: c.id == id && c.kind == EngineeringReview }

  /** The context after one operation; a raised error leaves what was committed before it. */
  function Apply(x: Context, op: Operation): Context {
    match op
    case EvaluateMachine(resolve) =>
      x.(findings := x.findings + Evaluation(x.criteria, Found(x.findings), Found(x.findings), x.result.Some?,
                                             resolve).0)
    case Propose(id, criterion, actor, role, hasEvidence) =>
      if !IsReview(x.criteria, criterion) || role != GraduateEngineer || !hasEvidence || x.result.Some?
         || id in x.proposals || exists k | k in x.proposals :: x.proposals[k].criterion == criterion
      then x else x.(proposals := x.proposals[id := Proposal(criterion, actor)])
    case FinaliseReview(id, actor, role, satisfied) =>
      if id !in x.proposals || role != IndependentReviewer || actor == x.proposals[id].proposer || x.result.Some?
         || id in x.reviewed || x.proposals[id].criterion in Found(x.findings)
      then x
      else x.(reviewed := x.reviewed + {id},
              findings := x.findings + [Finding(x.proposals[id].criterion,
                                                if satisfied then Satisfied else NotSatisfied)])
    case FinaliseResult(hasEvidence) =>
      if !Complete(x.criteria, x.findings) || !hasEvidence
        || x.result.Some? then x else x.(result := Some(VerdictOf(x.findings)))
  }

  function ApplyAll(x: Context, ops: seq<Operation>): Context
    decreases |ops|
  {
    if ops == [] then x else ApplyAll(Apply(x, ops[0]), ops[1..])
  }

  // ---------------------------------------------------------------- what every history keeps

  /** Findings are for distinct criteria, and a result stands only on complete findings, with the
      verdict they give. */
  ghost predicate Sound(x: Context) {
    && Distinct(CriteriaOf(x.findings))
    && (x.result.Some? ==> Complete(x.criteria, x.findings) && x.result == Some(VerdictOf(x.findings)))
  }

  lemma {:induction false} EvaluationDistinct(criteria: seq<Criterion>, existing: set<Id>, sofar: set<Id>,
      closed: bool, resolve: map<Id, Resolution>)
    requires existing <= sofar
    ensures var added := Evaluation(criteria, existing, sofar, closed, resolve).0;
            Distinct(CriteriaOf(added)) && (closed ==> added == []) && forall f | f in added :: f.criterion !in sofar
    decreases |criteria|
  {
    if criteria != [] {
      var c := criteria[0];
      if c.kind != MachineComparison || c.id in existing {
        EvaluationDistinct(criteria[1..], existing, sofar, closed, resolve);
      } else if c.id !in resolve || StatusFor(resolve[c.id]).None? || c.id in sofar || closed {
      } else {
        EvaluationDistinct(criteria[1..], existing, sofar + {c.id}, closed, resolve);
        var more := Evaluation(criteria[1..], existing, sofar + {c.id}, closed, resolve).0;
        var f := Finding(c.id, StatusFor(resolve[c.id]).value);
        assert CriteriaOf([f] + more) == [c.id] + CriteriaOf(more);
        CriteriaFound(more);
        DistinctConcat([c.id], CriteriaOf(more));
      }
    }
  }

  lemma AddedAreDistinct(findings: seq<Finding>, added: seq<Finding>)
    requires Distinct(CriteriaOf(findings)) && Distinct(CriteriaOf(added)) && forall f | f in added ::
               f.criterion !in Found(findings)
    ensures Distinct(CriteriaOf(findings + added))
  {
    assert CriteriaOf(findings + added) == CriteriaOf(findings) + CriteriaOf(added);
    CriteriaFound(findings);
    CriteriaFound(added);
    DistinctConcat(CriteriaOf(findings), CriteriaOf(added));
  }

  lemma ApplyKeeps(x: Context, op: Operation)
    requires Sound(x)
    ensures Sound(Apply(x, op)) && x.findings <= Apply(x, op).findings && Apply(x, op).criteria == x.criteria
    ensures x.result.Some? ==> Apply(x, op).findings == x.findings && Apply(x, op).result == x.result
  {
    hide Complete, VerdictOf, IsReview;
    match op
    case EvaluateMachine(resolve) =>
      EvaluationDistinct(x.criteria, Found(x.findings), Found(x.findings), x.result.Some?, resolve);
      AddedAreDistinct(x.findings, Evaluation(x.criteria, Found(x.findings), Found(x.findings), x.result.Some?,
                                              resolve).0);
      assert x.findings + [] == x.findings;
    case FinaliseReview(id, actor, role, satisfied) =>
      if id in x.proposals && x.proposals[id].criterion !in Found(x.findings) {
        AddedAreDistinct(x.findings,
                         [Finding(x.proposals[id].criterion, if satisfied then Satisfied else NotSatisfied)]);
      }
    case _ =>
  }

  /** Over any history findings are only added, at most one for each criterion, and a result is final
      and earned: it stands on complete findings and carries their verdict. */
  lemma {:induction false} ResultsAreEarned(x: Context, ops: seq<Operation>)
    requires Sound(x)
    ensures var y := ApplyAll(x, ops);
            && Sound(y) && x.findings <= y.findings && y.criteria == x.criteria
            && (x.result.Some? ==> y.findings == x.findings && y.result == x.result)
            && (y.result.Some? ==> multiset(CriteriaOf(y.findings)) == multiset(Required(y.criteria))
                                   && (y.result == Some(Pass) <==> forall f | f in y.findings :: f.status == Satisfied))
    decreases |ops|
  {
    hide Apply, Complete, VerdictOf;
    if ops != [] {
      ApplyKeeps(x, ops[0]);
      ResultsAreEarned(Apply(x, ops[0]), ops[1..]);
    } else if x.result.Some? {
      CompleteIffPermutation(x.criteria, x.findings);
      PassIffAllSatisfied(x.criteria, x.findings);
    }
  }

  /** Once a criterion is NOT_EVALUATED no later evaluation, review or finalisation makes the context
      complete, and it never gets a result. */
  lemma {:induction false} NotEvaluatedIsFinal(x: Context, ops: seq<Operation>)
    requires Sound(x) && exists f :: f in x.findings && f.status == NotEvaluated
    ensures var y := ApplyAll(x, ops);
            !Complete(y.criteria, y.findings) && y.result.None? && exists f ::
                f in y.findings && f.status == NotEvaluated
    decreases |ops|
  {
    hide Apply, Complete, VerdictOf;
    CompleteIffPermutation(x.criteria, x.findings);
    if ops != [] {
      ApplyKeeps(x, ops[0]);
      var y := Apply(x, ops[0]);
      var f :| f in x.findings && f.status == NotEvaluated;
      var k :| 0 <= k < |x.findings| && x.findings[k] == f;
      assert y.findings[k] == f && f in y.findings;
      NotEvaluatedIsFinal(y, ops[1..]);
    }
  }

  // ---------------------------------------------------------------- what an evaluation adds, and why

  /** The machine criteria without a finding, in the order of the method. */
  function Pending(criteria: seq<Criterion>, existing: set<Id>): seq<Id> {
    if criteria == [] then []
    else
      (if criteria[0].kind == MachineComparison && criteria[0].id !in existing then [criteria[0].id] else [])
      + Pending(criteria[1..], existing)
  }

  lemma {:induction false} PendingAre(criteria: seq<Criterion>, existing: set<Id>)
    ensures forall id :: id in Pending(criteria, existing) <==>
              exists c :: c in criteria && c.id == id && c.kind == MachineComparison && id !in existing
  {
    if criteria != [] {
      PendingAre(criteria[1..], existing);
      assert criteria == [criteria[0]] + criteria[1..];
    }
  }

  /** The criterion resolved to one value and that value matches, to one that differs, or to none or several. */
  ghost predicate StatusEarned(status: Status, resolution: Resolution) {
    && (status == Satisfied <==> resolution == Values([Matches]))
    && (status == NotSatisfied <==> resolution == Values([Differs]))
    && (status == NotEvaluated <==> resolution.Values? && |resolution.values| != 1)
  }

  /** The evaluation cannot get past the `k`-th pending criterion: the result already stands, the criterion
      was found before it, its sources cannot be read, or its one value cannot be compared. */
  ghost predicate Stops(pending: seq<Id>, k: nat, closed: bool, resolve: map<Id, Resolution>)
    requires k < |pending|
  {
    || closed || pending[k] in pending[..k] || pending[k] !in resolve
    || Unreadable(resolve[pending[k]])
  }

  /** The `k`-th pending criterion is got past, with the finding its sources earn. */
  ghost predicate Passes(pending: seq<Id>, k: nat, f: Finding, closed: bool, resolve: map<Id, Resolution>)
    requires k < |pending|
  {
    && f.criterion == pending[k] && !Stops(pending, k, closed, resolve)
    && f.criterion in resolve && StatusEarned(f.status, resolve[f.criterion])
  }

  /** Findings are added for the pending criteria in order, each with the status its sources earn, up to the
      first criterion that stops the evaluation; it is complete when there is none. */
  ghost predicate Earned(pending: seq<Id>, added: seq<Finding>, complete: bool, closed: bool,
      resolve: map<Id, Resolution>)
  {
    && |added| <= |pending|
    && (forall k | 0 <= k < |added| :: Passes(pending, k, added[k], closed, resolve))
    && (complete <==> |added| == |pending|)
    && (!complete ==> Stops(pending, |added|, closed, resolve))
  }

  /** The same for an evaluation that has come past the criteria `before`. */
  ghost predicate EarnedAfter(before: seq<Id>, pending: seq<Id>, added: seq<Finding>, complete: bool, closed: bool,
      resolve: map<Id, Resolution>)
  {
    && |added| <= |pending|
    && (forall k | 0 <= k < |added| :: Passes(before + pending, |before| + k, added[k], closed, resolve))
    && (complete <==> |added| == |pending|)
    && (!complete ==> Stops(before + pending, |before| + |added|, closed, resolve))
  }

  lemma {:induction false} EvaluationEarned(criteria: seq<Criterion>, existing: set<Id>, before: seq<Id>, closed: bool,
      resolve: map<Id, Resolution>)
    ensures var (added, complete) := Evaluation(criteria, existing, existing + (set id | id in before), closed,
                                                resolve);
            EarnedAfter(before, Pending(criteria, existing), added, complete, closed, resolve)
    decreases |criteria|
  {
    hide Stops, StatusEarned, Earned, EarnedAfter, Passes;
    if criteria == [] {
      NothingPending(before, closed, resolve);
      return;
    }
    var c, rest, sofar := criteria[0], criteria[1..], existing + (set id | id in before);
    var pending := Pending(rest, existing);
    if c.kind != MachineComparison || c.id in existing {
      EvaluationEarned(rest, existing, before, closed, resolve);
      assert Pending(criteria, existing) == pending;
      return;
    }
    assert Pending(criteria, existing) == [c.id] + pending;
    StopsFirst(before, c.id, pending, closed, resolve);
    assert c.id in sofar <==> c.id in before;
    if c.id !in resolve || StatusFor(resolve[c.id]).None? || c.id in sofar || closed {
      if c.id in resolve { RaisesWhenUnreadable(resolve[c.id]); }
      EarnsNothing(before, c.id, pending, closed, resolve);
    } else {
      EvaluationEarned(rest, existing, before + [c.id], closed, resolve);
      assert existing + (set id | id in before + [c.id]) == sofar + {c.id};
      RaisesWhenUnreadable(resolve[c.id]);
      var (more, complete) := Evaluation(rest, existing, sofar + {c.id}, closed, resolve);
      EarnsOne(before, c.id, pending, StatusFor(resolve[c.id]).value, more, complete, closed, resolve);
    }
  }

  lemma NothingPending(before: seq<Id>, closed: bool, resolve: map<Id, Resolution>)
    ensures EarnedAfter(before, [], [], true, closed, resolve)
  {
  }

  lemma StopsFirst(before: seq<Id>, id: Id, pending: seq<Id>, closed: bool, resolve: map<Id, Resolution>)
    ensures Stops(before + ([id] + pending), |before|, closed, resolve)
            <==> closed || id in before || id !in resolve || Unreadable(resolve[id])
  {
    var whole := before + ([id] + pending);
    assert whole[|before|] == id && whole[..|before|] == before;
  }

  lemma EarnsNothing(before: seq<Id>, id: Id, pending: seq<Id>, closed: bool, resolve: map<Id, Resolution>)
    requires Stops(before + ([id] + pending), |before|, closed, resolve)
    ensures EarnedAfter(before, [id] + pending, [], false, closed, resolve)
  {
    hide Stops, StatusEarned;
    var none: seq<Finding> := [];
    assert |none| < |[id] + pending| && |before| + |none| == |before|;
    assert Stops(before + ([id] + pending), |before| + |none|, closed, resolve);
  }

  lemma EarnsOne(before: seq<Id>, id: Id, pending: seq<Id>, status: Status, more: seq<Finding>, complete: bool,
      closed: bool, resolve: map<Id, Resolution>)
    requires !Stops(before + ([id] + pending), |before|, closed, resolve)
    requires id in resolve && StatusEarned(status, resolve[id])
    requires EarnedAfter(before + [id], pending, more, complete, closed, resolve)
    ensures EarnedAfter(before, [id] + pending, [Finding(id, status)] + more, complete, closed, resolve)
  {
    hide StatusEarned;
    var added, all := [Finding(id, status)] + more, [id] + pending;
    assert before + [id] + pending == before + all;
    forall k | 0 <= k < |added| ensures Passes(before + all, |before| + k, added[k], closed, resolve) {
      if k > 0 {
        assert added[k] == more[k - 1];
        assert Passes(before + [id] + pending, |before + [id]| + (k - 1), more[k - 1], closed, resolve);
      } else {
        assert (before + all)[|before|] == id;
      }
    }
    assert !complete ==> Stops(before + [id] + pending, |before + [id]| + |more|, closed, resolve);
  }

  /** Reading the sources of a criterion raises, or comparing its one value does. */
  predicate Unreadable(resolution: Resolution) {
    resolution == AdapterFailed || resolution == Values([CannotNormalise])
  }

  lemma RaisesWhenUnreadable(resolution: Resolution)
    ensures StatusFor(resolution).None? <==> Unreadable(resolution)
    ensures StatusFor(resolution).Some? ==> StatusEarned(StatusFor(resolution).value, resolution)
  {
    if resolution.Values? && |resolution.values| == 1 { assert resolution.values == [resolution.values[0]]; }
  }

  lemma EvaluationEarns(criteria: seq<Criterion>, findings: seq<Finding>, closed: bool, resolve: map<Id, Resolution>)
    ensures var (added, complete) := Evaluation(criteria, Found(findings), Found(findings), closed, resolve);
            Earned(Pending(criteria, Found(findings)), added, complete, closed, resolve)
  {
    var pending := Pending(criteria, Found(findings));
    EvaluationEarned(criteria, Found(findings), [], closed, resolve);
    assert Found(findings) + (set id | id in []) == Found(findings);
    assert [] + pending == pending;
  }

  /** What one evaluation of the machine criteria adds to a context, and which criterion stops it. */
  lemma EvaluationAdds(x: Context, resolve: map<Id, Resolution>)
    ensures var y := Apply(x, EvaluateMachine(resolve));
            && x.findings <= y.findings && y == x.(findings := y.findings)
            && exists complete ::
                 Earned(Pending(x.criteria, Found(x.findings)), y.findings[|x.findings|..], complete, x.result.Some?,
                        resolve)
  {
    hide Earned;
    EvaluationEarns(x.criteria, x.findings, x.result.Some?, resolve);
    var pending := Pending(x.criteria, Found(x.findings));
    var (added, complete) := Evaluation(x.criteria, Found(x.findings), Found(x.findings), x.result.Some?, resolve);
    assert Apply(x, EvaluateMachine(resolve)).findings[|x.findings|..] == added;
    assert Earned(pending, added, complete, x.result.Some?, resolve);
  }

  // ---------------------------------------------------------------- where every finding comes from

  /** Some evaluation of the history gave the criterion this status from its sources. */
  ghost predicate MachineEarned(criteria: seq<Criterion>, ops: seq<Operation>, f: Finding) {
    && Criterion(f.criterion, MachineComparison) in criteria
    && exists k :: 0 <= k < |ops| && Evaluates(ops[k], f)
  }

  ghost predicate Evaluates(op: Operation, f: Finding) {
    op.EvaluateMachine? && f.criterion in op.resolve && StatusEarned(f.status, op.resolve[f.criterion])
  }

  /** A graduate engineer proposed the criterion on evidence, and an independent reviewer who is somebody
      else gave it this status afterwards. */
  ghost predicate ReviewEarned(criteria: seq<Criterion>, ops: seq<Operation>, f: Finding) {
    && Criterion(f.criterion, EngineeringReview) in criteria
    && exists i, j :: 0 <= i < j < |ops| && Proposes(ops[i], f.criterion) && Reviews(ops[i], ops[j], f.status)
  }

  predicate Proposes(op: Operation, criterion: Id) {
    op.Propose? && op.criterion == criterion && op.role == GraduateEngineer && op.hasEvidence
  }

  predicate Reviews(proposal: Operation, review: Operation, status: Status) {
    && proposal.Propose? && review.FinaliseReview? && review.proposal == proposal.id
    && review.role == IndependentReviewer && review.actor != proposal.actor
    && (status == Satisfied <==> review.satisfied) && (status == NotSatisfied <==> !review.satisfied)
  }

  ghost predicate Backed(criteria: seq<Criterion>, ops: seq<Operation>, f: Finding) {
    MachineEarned(criteria, ops, f) || ReviewEarned(criteria, ops, f)
  }

  ghost predicate ProposalBacked(criteria: seq<Criterion>, ops: seq<Operation>, id: nat, p: Proposal) {
    && Criterion(p.criterion, EngineeringReview) in criteria
    && exists i :: 0 <= i < |ops| && Proposes(ops[i], p.criterion) && ops[i].id == id && ops[i].actor == p.proposer
  }

  /** Every finding and every proposal of the context comes from the operations so far. */
  ghost predicate Accountable(x: Context, past: seq<Operation>) {
    && (forall f | f in x.findings :: Backed(x.criteria, past, f))
    && (forall id | id in x.proposals :: ProposalBacked(x.criteria, past, id, x.proposals[id]))
  }

  lemma StillBacked(criteria: seq<Criterion>, past: seq<Operation>, op: Operation, f: Finding)
    requires Backed(criteria, past, f)
    ensures Backed(criteria, past + [op], f)
  {
    var ops := past + [op];
    if MachineEarned(criteria, past, f) {
      var k :| 0 <= k < |past| && Evaluates(past[k], f);
      assert Evaluates(ops[k], f);
    } else {
      var i, j :| 0 <= i < j < |past| && Proposes(past[i], f.criterion) && Reviews(past[i], past[j], f.status);
      assert Proposes(ops[i], f.criterion) && Reviews(ops[i], ops[j], f.status);
    }
  }

  lemma ProposalStillBacked(criteria: seq<Criterion>, past: seq<Operation>, op: Operation, id: nat, p: Proposal)
    requires ProposalBacked(criteria, past, id, p)
    ensures ProposalBacked(criteria, past + [op], id, p)
  {
    var ops := past + [op];
    var i :| 0 <= i < |past| && Proposes(past[i], p.criterion) && past[i].id == id && past[i].actor == p.proposer;
    assert Proposes(ops[i], p.criterion) && ops[i].id == id;
  }

  lemma EvaluationBacked(x: Context, past: seq<Operation>, resolve: map<Id, Resolution>, f: Finding)
    requires f in Apply(x, EvaluateMachine(resolve)).findings[|x.findings|..]
    ensures Backed(x.criteria, past + [EvaluateMachine(resolve)], f)
  {
    hide StatusEarned, Stops;
    EvaluationAdds(x, resolve);
    PendingAre(x.criteria, Found(x.findings));
    var added := Apply(x, EvaluateMachine(resolve)).findings[|x.findings|..];
    var k :| 0 <= k < |added| && added[k] == f;
    assert f.criterion in Pending(x.criteria, Found(x.findings));
    assert Evaluates((past + [EvaluateMachine(resolve)])[|past|], f);
  }

  lemma ReviewBacked(x: Context, past: seq<Operation>, op: Operation) returns (f: Finding)
    requires Accountable(x, past) && op.FinaliseReview? && Apply(x, op) != x
    ensures Apply(x, op).findings == x.findings + [f] && Backed(x.criteria, past + [op], f)
  {
    var ops, p := past + [op], x.proposals[op.proposal];
    f := Finding(p.criterion, if op.satisfied then Satisfied else NotSatisfied);
    var i :| 0 <= i < |past| && Proposes(past[i], p.criterion) && past[i].id == op.proposal
      && past[i].actor == p.proposer;
    assert Proposes(ops[i], f.criterion) && Reviews(ops[i], ops[|past|], f.status);
    assert Backed(x.criteria, ops, f);
  }

  lemma ProposalsBacked(x: Context, past: seq<Operation>, op: Operation)
    requires Accountable(x, past)
    ensures var y := Apply(x, op);
            forall id | id in y.proposals :: ProposalBacked(x.criteria, past + [op], id, y.proposals[id])
  {
    hide Evaluation, Complete, Backed;
    var y, ops := Apply(x, op), past + [op];
    forall id | id in y.proposals ensures ProposalBacked(x.criteria, ops, id, y.proposals[id]) {
      if id in x.proposals && y.proposals[id] == x.proposals[id] {
        ProposalStillBacked(x.criteria, past, op, id, x.proposals[id]);
      } else {
        assert Proposes(ops[|past|], y.proposals[id].criterion) && ops[|past|].id == id;
      }
    }
  }

  lemma ApplyAccounts(x: Context, past: seq<Operation>, op: Operation)
    requires Accountable(x, past)
    ensures Accountable(Apply(x, op), past + [op]) && Apply(x, op).criteria == x.criteria
  {
    hide Evaluation, Complete, Backed, ProposalBacked, StatusEarned;
    var y, ops := Apply(x, op), past + [op];
    ProposalsBacked(x, past, op);
    if op.EvaluateMachine? { EvaluationAdds(x, op.resolve); }
    if op.FinaliseReview? && y != x { var f := ReviewBacked(x, past, op); }
    forall f | f in y.findings ensures Backed(x.criteria, ops, f) {
      if f in x.findings {
        StillBacked(x.criteria, past, op, f);
      } else if op.EvaluateMachine? {
        assert y.findings == x.findings + y.findings[|x.findings|..];
        EvaluationBacked(x, past, op.resolve, f);
      }
    }
  }

  /** Over any history from an empty context every finding is backed: a machine criterion has the status
      that its sources earned in some evaluation, and a reviewed one the status an independent reviewer
      gave to what another person proposed. */
  lemma {:induction false} EveryFindingIsBacked(x: Context, past: seq<Operation>, ops: seq<Operation>)
    requires Accountable(x, past)
    ensures Accountable(ApplyAll(x, ops), past + ops) && ApplyAll(x, ops).criteria == x.criteria
    decreases |ops|
  {
    hide Apply, Accountable;
    if ops == [] {
      assert past + ops == past;
    } else {
      ApplyAccounts(x, past, ops[0]);
      EveryFindingIsBacked(Apply(x, ops[0]), past + [ops[0]], ops[1..]);
      assert past + [ops[0]] + ops[1..] == past + ops;
    }
  }

  /** A PASS that a history reaches is backed criterion by criterion: for each one the history holds the
      evaluation, or the proposal and its independent review, that found it satisfied. */
  lemma PassIsBacked(criteria: seq<Criterion>, ops: seq<Operation>)
    ensures var y := ApplyAll(Context(criteria, [], map[], {}, None), ops);
            && (forall f | f in y.findings :: Backed(criteria, ops, f))
            && (y.result == Some(Pass) ==> forall id | id in Required(criteria) ::
                                             Backed(criteria, ops, Finding(id, Satisfied)))
  {
    hide Backed, Apply, Complete, VerdictOf;
    var x := Context(criteria, [], map[], {}, None);
    assert [] + ops == ops;
    EveryFindingIsBacked(x, [], ops);
    ResultsAreEarned(x, ops);
    var y := ApplyAll(x, ops);
    if y.result == Some(Pass) {
      PassIffAllSatisfied(criteria, y.findings);
      assert forall id | id in Required(criteria) :: Finding(id, Satisfied) in y.findings;
    }
  }

  /** A proposal is recorded exactly when a graduate engineer makes it on evidence, for a review criterion
      that has no proposal yet, before the result stands. */
  lemma ProposedIff(x: Context, op: Operation)
    requires op.Propose?
    ensures Apply(x, op) != x <==>
              && Criterion(op.criterion, EngineeringReview) in x.criteria && op.role == GraduateEngineer
                 && op.hasEvidence
              && x.result == None && op.id !in x.proposals
              && forall p | p in x.proposals.Values :: p.criterion != op.criterion
    ensures Apply(x, op) != x
            ==> Apply(x, op) == x.(proposals := x.proposals[op.id := Proposal(op.criterion, op.actor)])
  {
    if op.id !in x.proposals { assert op.id in x.proposals[op.id := Proposal(op.criterion, op.actor)]; }
    assert IsReview(x.criteria, op.criterion) <==> Criterion(op.criterion, EngineeringReview) in x.criteria;
    forall k | k in x.proposals ensures x.proposals[k] in x.proposals.Values {}
  }

  /** A review is finalised exactly when an independent reviewer other than the proposer gives it, once, for
      a criterion without a finding, before the result stands. */
  lemma ReviewFinalisedIff(x: Context, op: Operation)
    requires op.FinaliseReview?
    ensures Apply(x, op) != x <==>
              && op.proposal in x.proposals && op.role == IndependentReviewer
                 && op.actor != x.proposals[op.proposal].proposer
              && x.result == None && op.proposal !in x.reviewed
              && forall f | f in x.findings :: f.criterion != x.proposals[op.proposal].criterion
    ensures Apply(x, op) != x ==>
              exists f: Finding :: && f.criterion == x.proposals[op.proposal].criterion
                          && f.status == (if op.satisfied then Satisfied else NotSatisfied)
                          && Apply(x, op) == x.(findings := x.findings + [f], reviewed := x.reviewed + {op.proposal})
  {
    if op.proposal in x.proposals {
      var f := Finding(x.proposals[op.proposal].criterion, if op.satisfied then Satisfied else NotSatisfied);
      assert |x.findings + [f]| != |x.findings|;
    }
  }

  /** A result is stored exactly when the findings are a permutation of the criteria, all evaluated, on
      evidence and for the first time; it is PASS exactly when all of them are satisfied. */
  lemma ResultFinalisedIff(x: Context, op: Operation)
    requires op.FinaliseResult?
    ensures Apply(x, op) != x <==>
              && x.result == None && op.hasEvidence && multiset(CriteriaOf(x.findings))
                 == multiset(Required(x.criteria))
              && forall f | f in x.findings :: f.status != NotEvaluated
    ensures Apply(x, op) != x ==>
              Apply(x, op) == x.(result := Some(if forall f | f in x.findings ::
                                                  f.status == Satisfied then Pass else Fail))
  {
    hide Complete, VerdictOf;
    CompleteIffPermutation(x.criteria, x.findings);
    if Complete(x.criteria, x.findings) { PassIffAllSatisfied(x.criteria, x.findings); }
  }

  // ---------------------------------------------------------------- the evaluation loop

  lemma FoundSnoc(findings: seq<Finding>, f: Finding)
    ensures Found(findings + [f]) == Found(findings) + {f.criterion}
  {
    assert f in findings + [f];
  }

  /** The rows of one determination context. */
  class DeterminationRows {
    const criteria: seq<Criterion>
    var findings: seq<Finding>
    var result: Option<Verdict>

    constructor (required: seq<Criterion>)
      ensures criteria == required && findings == [] && result == None
    {
      criteria, findings, result := required, [], None;
    }

    /** Refused when the criterion already has a finding or the result stands. */
    method InsertFinding(f: Finding) returns (inserted: bool)
      modifies this`findings
      ensures inserted <==> f.criterion !in Found(old(findings)) && result.None?
      ensures findings == if inserted then old(findings) + [f] else old(findings)
    {
      inserted := (forall k | 0 <= k < |findings| :: findings[k].criterion != f.criterion) && result.None?;
      if inserted { findings := findings + [f]; }
    }

    /** Evaluate the machine criteria that had no finding when the call began, committing each finding
        as it is made. */
    method EvaluateMachineCriteria(resolve: map<Id, Resolution>) returns (ok: bool)
      modifies this`findings
      ensures var (added, complete) := Evaluation(criteria, Found(old(findings)), Found(old(findings)), result.Some?,
                                                  resolve);
              findings == old(findings) + added && ok == complete
      ensures old(findings) <= findings
      ensures Earned(Pending(criteria, Found(old(findings))), findings[|old(findings)|..], ok, result.Some?, resolve)
    {
      hide StatusFor, Earned, Stops, StatusEarned;
      EvaluationEarns(criteria, findings, result.Some?, resolve);
      var existing := Found(findings);
      ghost var added: seq<Finding> := [];
      ghost var whole := Evaluation(criteria, existing, existing, result.Some?, resolve);
      assert criteria[0..] == criteria;
      for i := 0 to |criteria|
        invariant findings == old(findings) + added
        invariant whole.0 == added + Evaluation(criteria[i..], existing, Found(findings), result.Some?, resolve).0
        invariant whole.1 == Evaluation(criteria[i..], existing, Found(findings), result.Some?, resolve).1
      {
        var c := criteria[i];
        assert criteria[i..][0] == c && criteria[i..][1..] == criteria[i + 1..];
        if c.kind == MachineComparison && c.id !in existing {
          if c.id !in resolve { return false; }
          var status := StatusFor(resolve[c.id]);
          if status.None? { return false; }
          ghost var before := findings;
          var inserted := InsertFinding(Finding(c.id, status.value));
          if !inserted { return false; }
          FoundSnoc(before, Finding(c.id, status.value));
          added := added + [Finding(c.id, status.value)];
        }
      }
      ok := true;
    }
  }
}
