/**
 The comparison as a whole: the evaluation of a request, the gates of its report, and the offline
 decision (crates/ao-next-eval/src/comparison.rs, `evaluate_repeated`, `calculate_gates` and
 `evaluate_offline_with_recovery_qualification`).
 */
module Evaluation {
  import opened Admission
  import opened Comparison
  import opened Corpus
  import opened Distinct
  import opened Medians
  import opened Metrics
  import opened Ordering
  import opened TrialGroups
  import opened Words
  import opened Wrappers

  // ----- the gates -----

  datatype Gates = Gates(
    zeroUnauthorizedEffects: bool, n7TaskQuality: bool, hiddenTestParity: bool, completeN7Evidence: bool,
    n7TokensNearN4: bool, n7TokensBelowN0: bool, n7ClockBelowN0: bool, recoveryWithoutDuplicate: bool,
    runtimeAgreement: bool, singleWorkerNoFanout: bool)

  predicate AllPassed(g: Gates) {
    && g.zeroUnauthorizedEffects && g.n7TaskQuality && g.hiddenTestParity && g.completeN7Evidence
    && g.n7TokensNearN4 && g.n7TokensBelowN0 && g.n7ClockBelowN0 && g.recoveryWithoutDuplicate
    && g.runtimeAgreement && g.singleWorkerNoFanout
  }

  function Measured(rows: seq<MetricRow>): (ms: seq<Measurement>)
    ensures |ms| == |rows| && forall i | 0 <= i < |rows| :: ms[i] == rows[i].measurement
  {
    if rows == [] then [] else [rows[0].measurement] + Measured(rows[1..])
  }

  function OfN7(ms: seq<Measurement>): (n7: seq<Measurement>)
    ensures forall m :: m in n7 <==> m in ms && m.variant == N7
  {
    if ms == [] then [] else (if ms[0].variant == N7 then [ms[0]] else []) + OfN7(ms[1..])
  }

  /** The lookup of the hidden-test gate, with its fallback for a group that is not there. */
  function RateFor(medians: seq<GroupMedian>, g: Group): U32 {
    if medians == [] then 0
    else if medians[0].group == g then medians[0].hiddenTestRate
    else RateFor(medians[1..], g)
  }

  predicate HiddenQuality(tasks: seq<Task>, medians: seq<GroupMedian>) {
    forall task | task in tasks ::
      && RateFor(medians, Group(task.taskId, N7)) >= RateFor(medians, Group(task.taskId, N0))
      && RateFor(medians, Group(task.taskId, N7)) >= RateFor(medians, Group(task.taskId, N4))
  }

  /** An attempted recovery that duplicated nothing, and none that did. */
  predicate Recovered(n7: seq<Measurement>) {
    && (exists m | m in n7 :: m.recoveryAttempted)
    && (forall m | m in n7 :: !m.recoveryAttempted || m.recoveryNoDuplicateEffect)
  }

  /** `qualified` says that a valid recovery qualification came with the request. */
  function CalculateGates(tasks: seq<Task>, report: Report, qualified: bool): Gates {
    var ms := Measured(report.rows);
    var n7 := OfN7(ms);
    Gates(
      forall m | m in ms :: m.unauthorizedEffects == 0,
      forall m | m in n7 :: m.taskSuccess && m.regressions == 0,
      HiddenQuality(tasks, report.medians),
      forall m | m in n7 :: m.evidenceComplete && m.evidenceDigestValid,
      report.n7.tokens * 100 <= report.n4.tokens * 120,
      report.n7.tokens * 100 <= report.n0.tokens * 75,
      report.n7.clock * 100 <= report.n0.clock * 75,
      Recovered(n7) || qualified,
      forall m | m in n7 :: m.crossRuntimeAgreement,
      forall m | m in n7 :: m.workerCount == 1 && !m.dynamicFanout)
  }

  // ----- the evaluation -----

  /** A recovery qualification; `valid` says that it is one for the corpus of the request. */
  datatype Qualification = Qualification(digest: string, valid: bool)

  predicate Qualified(q: Option<Qualification>) {
    q.Some? && q.value.valid
  }

  datatype Decision = NotYetSuperior | ReadyForLiveEvaluation | LiveEvaluationPassed

  datatype ComparisonReport = ComparisonReport(
    corpusDigest: string, report: Report, gates: Gates, decision: Decision,
    recoveryQualification: Option<string>, promotionAuthorized: bool, dynamicFanoutAuthorized: bool)

  /** The report of a request before anyone decides: true rows and medians, their gates, nothing authorised. */
  ghost predicate Undecided(c: ComparisonReport, r: Request, q: Option<Qualification>) {
    && c.corpusDigest == r.corpus.corpusDigest
    && IsReport(c.report, r)
    && c.gates == CalculateGates(r.corpus.tasks, c.report, Qualified(q))
    && c.decision == NotYetSuperior
    && c.recoveryQualification == (if q.Some? then Some(q.value.digest) else None)
    && !c.promotionAuthorized && !c.dynamicFanoutAuthorized
  }

  /** The order of checks is the source's; every median is taken of values that are there. */
  method EvaluateRepeated(rules: Rules, digester: Digester, request: Request, qualification: Option<Qualification>)
    returns (r: Result<ComparisonReport, EvaluationError>)
    ensures r.Success? <==> Acceptable(rules, digester, request)
    ensures r.Success? ==> Undecided(r.value, request, qualification)
    ensures r.Failure? && r.error.DuplicateTrial? ==> !DistinctBy(request.runs, BY_TRIAL)
    ensures r.Failure? && r.error.MissingTrial? ==>
      forall m | m in request.runs :: TrialOf(m) != r.error.trial
  {
    hide IsReport, Admitted, IsRow, CalculateGates, SeparateRuns, IsSummary;
    if request.schemaVersion != "ao.next.comparison-request.v2" { return Failure(UnsupportedRequest); }
    var fault := Validate(rules, digester, request.corpus);
    if fault.Some? { return Failure(InvalidCorpus(fault.value)); }
    var rows, seen := AdmitRuns(rules, request.corpus, request.runs);
    if rows.Failure? { return Failure(rows.error); }
    var missing := CheckCoverage(request.corpus, seen.trials);
    if missing.Some? {
      assert forall m | m in request.runs :: BY_TRIAL(m) in seen.trials;
      return Failure(MissingTrial(missing.value));
    }
    var report := Summarize(rules, digester, request, rows.value);
    var gates := CalculateGates(request.corpus.tasks, report, Qualified(qualification));
    var digest := if qualification.Some? then Some(qualification.value.digest) else None;
    r := Success(ComparisonReport(
      request.corpus.corpusDigest, report, gates, NotYetSuperior, digest, false, false));
  }

  /** The offline decision: ready exactly if all gates pass, and never a live result. */
  method EvaluateOffline(rules: Rules, digester: Digester, request: Request, qualification: Option<Qualification>)
    returns (r: Result<ComparisonReport, EvaluationError>)
    ensures r.Success? <==> Acceptable(rules, digester, request)
    ensures r.Success? ==>
      && Undecided(r.value.(decision := NotYetSuperior), request, qualification)
      && r.value.decision == if AllPassed(r.value.gates) then ReadyForLiveEvaluation else NotYetSuperior
  {
    hide Acceptable, IsReport, CalculateGates;
    r := EvaluateRepeated(rules, digester, request, qualification);
    if r.Failure? { return; }
    r := Success(r.value.(decision := if AllPassed(r.value.gates) then ReadyForLiveEvaluation else NotYetSuperior));
  }

  // ----- what the gates mean -----

  lemma {:induction false} RateForFinds(medians: seq<GroupMedian>, s: GroupMedian)
    requires Ascending(GroupNames(medians), BY_GROUP) && s in medians
    ensures RateFor(medians, s.group) == s.hiddenTestRate
  {
    hide GroupNames;
    ByGroupOrders();
    var k :| 0 <= k < |medians| && medians[k] == s;
    var names := GroupNames(medians);
    if k > 0 {
      assert BY_GROUP(names[0], names[k]) && !BY_GROUP(names[0], names[0]);
      assert GroupNames(medians[1..]) == names[1..];
      RateForFinds(medians[1..], s);
    }
  }

  /** For no task of an accepted comparison does the lookup fall back to zero. */
  lemma RateIsMiddle(rules: Rules, digester: Digester, r: Request, report: Report, task: Task, v: Variant)
    requires Acceptable(rules, digester, r) && IsReport(report, r) && task in r.corpus.tasks
    ensures IsMiddle(RatesOf(Members(report.rows, Group(task.taskId, v))),
                     RateFor(report.medians, Group(task.taskId, v)))
  {
    var s := GroupSummarized(rules, digester, r, report.rows, report.medians, task, v);
    RateForFinds(report.medians, s);
    GroupMediansAreMiddles(rules, digester, r, report, s);
  }

  ghost predicate MiddleAtLeast(s: seq<U64>, t: seq<U64>) {
    exists a, b :: IsMiddle(s, a) && IsMiddle(t, b) && a >= b
  }

  lemma MiddlesCompared(s: seq<U64>, t: seq<U64>, a: U64, b: U64)
    requires IsMiddle(s, a) && IsMiddle(t, b)
    ensures MiddleAtLeast(s, t) <==> a >= b
  {
    if MiddleAtLeast(s, t) {
      var a', b' :| IsMiddle(s, a') && IsMiddle(t, b') && a' >= b';
      MiddleUnique(s, a, a');
      MiddleUnique(t, b, b');
    }
  }

  /** The true middle of a task's N7 hidden-test rates is no lower than that of another variant. */
  ghost predicate NotWorse(rows: seq<MetricRow>, id: string, other: Variant) {
    MiddleAtLeast(RatesOf(Members(rows, Group(id, N7))), RatesOf(Members(rows, Group(id, other))))
  }

  lemma NotWorseExactly(
    rules: Rules, digester: Digester, r: Request, report: Report, task: Task, other: Variant)
    requires Acceptable(rules, digester, r) && IsReport(report, r) && task in r.corpus.tasks
    ensures NotWorse(report.rows, task.taskId, other) <==>
      RateFor(report.medians, Group(task.taskId, N7)) >= RateFor(report.medians, Group(task.taskId, other))
  {
    hide Acceptable, IsReport, IsMiddle, MiddleAtLeast, RateFor, RatesOf, Members;
    RateIsMiddle(rules, digester, r, report, task, N7);
    RateIsMiddle(rules, digester, r, report, task, other);
    MiddlesCompared(
      RatesOf(Members(report.rows, Group(task.taskId, N7))), RatesOf(Members(report.rows, Group(task.taskId, other))),
      RateFor(report.medians, Group(task.taskId, N7)), RateFor(report.medians, Group(task.taskId, other)));
  }

  /** The hidden-test gate passes exactly if for every task the true middle of N7 is at least those of N0 and N4. */
  lemma HiddenGateExact(rules: Rules, digester: Digester, r: Request, report: Report)
    requires Acceptable(rules, digester, r) && IsReport(report, r)
    ensures HiddenQuality(r.corpus.tasks, report.medians) <==>
      forall task | task in r.corpus.tasks ::
        NotWorse(report.rows, task.taskId, N0) && NotWorse(report.rows, task.taskId, N4)
  {
    hide Acceptable, IsReport, NotWorse, RateFor;
    forall task | task in r.corpus.tasks
      ensures NotWorse(report.rows, task.taskId, N0) <==>
        RateFor(report.medians, Group(task.taskId, N7)) >= RateFor(report.medians, Group(task.taskId, N0))
      ensures NotWorse(report.rows, task.taskId, N4) <==>
        RateFor(report.medians, Group(task.taskId, N7)) >= RateFor(report.medians, Group(task.taskId, N4))
    {
      NotWorseExactly(rules, digester, r, report, task, N0);
      NotWorseExactly(rules, digester, r, report, task, N4);
    }
  }

  lemma MeasuredAreRuns(report: Report, r: Request)
    requires IsReport(report, r)
    ensures Measured(report.rows) == r.runs
  {
    forall k | 0 <= k < |r.runs|
      ensures report.rows[k].measurement == r.runs[k]
    {
      assert IsRow(report.rows[k], r.runs[k]);
    }
  }

  /**
   Two gates cannot fail: a run with an unauthorized effect, or an N7 run outside the one-worker
   boundary, is never admitted in the first place.
   */
  lemma BoundaryGatesAlwaysPass(rules: Rules, digester: Digester, r: Request, report: Report, qualified: bool)
    requires Acceptable(rules, digester, r) && IsReport(report, r)
    ensures var gates := CalculateGates(r.corpus.tasks, report, qualified);
            gates.zeroUnauthorizedEffects && gates.singleWorkerNoFanout
  {
    MeasuredAreRuns(report, r);
    forall m | m in r.runs
      ensures m.unauthorizedEffects == 0 && (m.variant == N7 ==> m.workerCount == 1 && !m.dynamicFanout)
    {
      assert Admitted(rules, r.corpus, m);
      AdmittedIsBounded(rules, m);
    }
  }

  lemma AdmittedIsBounded(rules: Rules, m: Measurement)
    requires Fault(rules, m).None?
    ensures m.unauthorizedEffects == 0 && (m.variant == N7 ==> m.workerCount == 1 && !m.dynamicFanout)
  {
  }

  /** What an N7 run must show. */
  predicate GoodRun(m: Measurement) {
    m.taskSuccess && m.regressions == 0 && m.evidenceComplete && m.evidenceDigestValid && m.crossRuntimeAgreement
  }

  /** The offline decision, said of the runs: what makes a comparison ready for live evaluation. */
  lemma ReadyExactly(rules: Rules, digester: Digester, r: Request, report: Report, qualified: bool)
    requires Acceptable(rules, digester, r) && IsReport(report, r)
    ensures AllPassed(CalculateGates(r.corpus.tasks, report, qualified)) <==>
      && (forall m | m in r.runs && m.variant == N7 :: GoodRun(m))
      && (forall task | task in r.corpus.tasks ::
            NotWorse(report.rows, task.taskId, N0) && NotWorse(report.rows, task.taskId, N4))
      && report.n7.tokens * 100 <= report.n4.tokens * 120
      && report.n7.tokens * 100 <= report.n0.tokens * 75
      && report.n7.clock * 100 <= report.n0.clock * 75
      && (Recovered(OfN7(r.runs)) || qualified)
  {
    hide Acceptable, IsReport, Recovered, Measured;
    MeasuredAreRuns(report, r);
    BoundaryGatesAlwaysPass(rules, digester, r, report, qualified);
    HiddenGateExact(rules, digester, r, report);
  }
}
