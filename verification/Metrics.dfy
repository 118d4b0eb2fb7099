/**
 What one evaluation run reports, and the metrics derived from it
 (crates/ao-next-eval/src/metrics.rs).
 */
module Metrics {
  import opened Words
  import opened Wrappers

  datatype Variant = N0 | N4 | N7

  /** The six sealed digests of a task. */
  datatype TaskSeal = TaskSeal(
    source: string, objective: string, workspaceSeed: string, visibleFixtures: string, hiddenTests: string,
    verifierProfile: string)

  /** What a variant is run with. */
  datatype RuntimeIdentity = RuntimeIdentity(
    runtime: string, runtimeDigest: string, modelIdentifier: string, modelDigest: string, promptDigest: string,
    policyDigest: string, adapterVersion: string, adapterDigest: string)

  datatype Tokens = Tokens(
    input: Option<U64>, cachedInput: Option<U64>, reasoning: Option<U64>, output: Option<U64>, reportedTotal: U64)

  datatype Measurement = Measurement(
    schemaVersion: string, corpusDigest: string, runId: string, trialId: string, trialIndex: U32,
    schedulePosition: U32, rawCaptureDigest: string, rawCaptureDigests: seq<string>, workspaceInstanceId: string,
    taskId: string, variant: Variant, seal: TaskSeal, identity: RuntimeIdentity, usageTrusted: bool,
    tokens: Tokens, wallClockMs: U64, modelWaitMs: U64, changedFiles: U32, acceptedChangedFiles: U32,
    hiddenTestsPassed: U32, hiddenTestsTotal: U32, unauthorizedEffects: U32, workerCount: U32,
    dynamicFanout: bool, hiddenTestExposure: bool, taskSuccess: bool, regressions: U32, evidenceComplete: bool,
    evidenceDigestValid: bool, recoveryAttempted: bool, recoveryNoDuplicateEffect: bool,
    crossRuntimeAgreement: bool)

  datatype MetricRow = MetricRow(
    measurement: Measurement, totalTokens: U64, hiddenTestRate: U32, changedFilePrecision: U32)

  datatype MetricsError =
    | UnsupportedSchema | EmptyIdentity | ZeroWorkers | HiddenTestExposure | UntrustedUsage | RawCaptureMismatch
    | UnauthorizedEffect | WorkerBoundary | IncompleteTokens | TokenOverflow | ReportedTotalMismatch
    | TimingContradiction | HiddenTestContradiction | ChangedFileContradiction

  /** Whether a text is white space only, and the digest of a list of digests. */
  datatype Rules = Rules(isBlank: string -> bool, digestOf: seq<string> -> string)

  // ----- the token total -----

  function TokenFields(t: Tokens): seq<Option<U64>> {
    [t.input, t.cachedInput, t.reasoning, t.output]
  }

  /** The sum as the loop runs it: the first missing field or overflow decides. */
  function AddTokens(fields: seq<Option<U64>>, total: U64): Result<U64, MetricsError> {
    if fields == [] then Success(total)
    else if fields[0].None? then Failure(IncompleteTokens)
    else
      var next := CheckedAdd(total, fields[0].value);
      if next.None? then Failure(TokenOverflow) else AddTokens(fields[1..], next.value)
  }

  function SumOf(fields: seq<Option<U64>>): nat {
    if fields == [] then 0 else (if fields[0].Some? then fields[0].value else 0) + SumOf(fields[1..])
  }

  /** No order of the additions matters: the sum exists if every field is there and the true total fits. */
  lemma {:induction false} AddTokensExact(fields: seq<Option<U64>>, total: U64)
    ensures AddTokens(fields, total).Success? <==>
      (forall f | f in fields :: f.Some?) && total + SumOf(fields) <= U64_MAX
    ensures AddTokens(fields, total).Success? ==> AddTokens(fields, total).value == total + SumOf(fields)
  {
    if fields != [] {
      assert forall f :: f in fields <==> f == fields[0] || f in fields[1..];
      if fields[0].Some? && total + fields[0].value <= U64_MAX {
        AddTokensExact(fields[1..], total + fields[0].value);
      }
    }
  }

  method TotalTokens(t: Tokens) returns (r: Result<U64, MetricsError>)
    ensures r == AddTokens(TokenFields(t), 0)
  {
    var fields := TokenFields(t);
    var total: U64 := 0;
    var i := 0;
    while i < |fields|
      invariant i <= |fields|
      invariant AddTokens(fields[i..], total) == AddTokens(fields, 0)
    {
      assert fields[i..][1..] == fields[i + 1..];
      if fields[i].None? { return Failure(IncompleteTokens); }
      var next := CheckedAdd(total, fields[i].value);
      if next.None? { return Failure(TokenOverflow); }
      total := next.value;
      i := i + 1;
    }
    r := Success(total);
  }

  // ----- rates in basis points -----

  /** `rate` is `part` out of `whole` in basis points, rounded down. */
  ghost predicate IsRate(rate: nat, part: nat, whole: nat) {
    rate * whole <= part * 10_000 < (rate + 1) * whole
  }

  function NarrowOr(n: nat, fallback: U32): U32 {
    if n <= U32_MAX then n else fallback
  }

  lemma RateBound(part: nat, whole: nat)
    requires 0 < whole && part <= whole
    ensures IsRate(part * 10_000 / whole, part, whole) && part * 10_000 / whole <= 10_000
  {
    var quotient := part * 10_000 / whole;
    assert quotient * whole <= part * 10_000 < (quotient + 1) * whole;
    assert (quotient - 10_000) * whole <= 0;
  }

  /** Of a part of the whole: the narrowing never falls back, and the rate is at most 100 percent. */
  function Rate(part: U32, whole: U32): (rate: U32)
    requires 0 < whole && part <= whole
    ensures IsRate(rate, part, whole) && rate <= 10_000
  {
    RateBound(part, whole);
    NarrowOr(part * 10_000 / whole, 10_000)
  }

  // ----- the checks -----

  /** The first reason, in the order of the checks, to reject a run. */
  function Fault(rules: Rules, m: Measurement): Option<MetricsError> {
    if m.schemaVersion != "ao.next.run-measurement.v2" then Some(UnsupportedSchema)
    else if rules.isBlank(m.runId) || rules.isBlank(m.trialId) || rules.isBlank(m.workspaceInstanceId)
            || rules.isBlank(m.taskId) || rules.isBlank(m.identity.runtime)
            || rules.isBlank(m.identity.modelIdentifier) || rules.isBlank(m.identity.adapterVersion) then
      Some(EmptyIdentity)
    else if m.workerCount == 0 then Some(ZeroWorkers)
    else if m.hiddenTestExposure then Some(HiddenTestExposure)
    else if !m.usageTrusted then Some(UntrustedUsage)
    else if m.rawCaptureDigests == [] || rules.digestOf(m.rawCaptureDigests) != m.rawCaptureDigest then
      Some(RawCaptureMismatch)
    else if m.unauthorizedEffects != 0 then Some(UnauthorizedEffect)
    else if m.variant == N7 && (m.workerCount != 1 || m.dynamicFanout) then Some(WorkerBoundary)
    else
      var total := AddTokens(TokenFields(m.tokens), 0);
      if total.Failure? then Some(total.error)
      else if total.value != m.tokens.reportedTotal then Some(ReportedTotalMismatch)
      else if m.modelWaitMs > m.wallClockMs then Some(TimingContradiction)
      else if m.hiddenTestsTotal == 0 || m.hiddenTestsPassed > m.hiddenTestsTotal then Some(HiddenTestContradiction)
      else if m.acceptedChangedFiles > m.changedFiles then Some(ChangedFileContradiction)
      else None
  }

  /** A row says of its run what is true of it. */
  ghost predicate IsRow(row: MetricRow, m: Measurement) {
    && row.measurement == m
    && (forall f | f in TokenFields(m.tokens) :: f.Some?)
    && row.totalTokens == SumOf(TokenFields(m.tokens)) == m.tokens.reportedTotal
    && IsRate(row.hiddenTestRate, m.hiddenTestsPassed, m.hiddenTestsTotal) && row.hiddenTestRate <= 10_000
    && (if m.changedFiles == 0 then row.changedFilePrecision == 10_000
        else IsRate(row.changedFilePrecision, m.acceptedChangedFiles, m.changedFiles))
    && row.changedFilePrecision <= 10_000
  }

  method DeriveMetrics(rules: Rules, m: Measurement) returns (r: Result<MetricRow, MetricsError>)
    ensures r.Failure? <==> Fault(rules, m).Some?
    ensures r.Failure? ==> r.error == Fault(rules, m).value
    ensures r.Success? ==> IsRow(r.value, m)
  {
    if m.schemaVersion != "ao.next.run-measurement.v2" { return Failure(UnsupportedSchema); }
    if rules.isBlank(m.runId) || rules.isBlank(m.trialId) || rules.isBlank(m.workspaceInstanceId)
       || rules.isBlank(m.taskId) || rules.isBlank(m.identity.runtime)
       || rules.isBlank(m.identity.modelIdentifier) || rules.isBlank(m.identity.adapterVersion) {
      return Failure(EmptyIdentity);
    }
    if m.workerCount == 0 { return Failure(ZeroWorkers); }
    if m.hiddenTestExposure { return Failure(HiddenTestExposure); }
    if !m.usageTrusted { return Failure(UntrustedUsage); }
    if m.rawCaptureDigests == [] || rules.digestOf(m.rawCaptureDigests) != m.rawCaptureDigest {
      return Failure(RawCaptureMismatch);
    }
    if m.unauthorizedEffects != 0 { return Failure(UnauthorizedEffect); }
    if m.variant == N7 && (m.workerCount != 1 || m.dynamicFanout) { return Failure(WorkerBoundary); }
    var total := TotalTokens(m.tokens);
    if total.Failure? { return Failure(total.error); }
    AddTokensExact(TokenFields(m.tokens), 0);
    if total.value != m.tokens.reportedTotal { return Failure(ReportedTotalMismatch); }
    if m.modelWaitMs > m.wallClockMs { return Failure(TimingContradiction); }
    if m.hiddenTestsTotal == 0 || m.hiddenTestsPassed > m.hiddenTestsTotal {
      return Failure(HiddenTestContradiction);
    }
    if m.acceptedChangedFiles > m.changedFiles { return Failure(ChangedFileContradiction); }
    var precision := if m.changedFiles == 0 then 10_000 else Rate(m.acceptedChangedFiles, m.changedFiles);
    r := Success(MetricRow(m, total.value, Rate(m.hiddenTestsPassed, m.hiddenTestsTotal), precision));
  }
}
