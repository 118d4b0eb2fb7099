/**
 The loops of the repeated-trial comparison that admit every run, refuse repeated ones, and look
 for missing ones (crates/ao-next-eval/src/comparison.rs, `evaluate_repeated`).
 */
module Admission {
  import opened Corpus
  import opened Distinct
  import opened Metrics
  import opened Wrappers

  datatype Request = Request(schemaVersion: string, corpus: Manifest, runs: seq<Measurement>)

  datatype EvaluationError =
    | UnsupportedRequest | InvalidCorpus(fault: CorpusError) | RunIdentityMismatch | TrialIdentityMismatch
    | DuplicateTrial | ReusedProvenance | RejectedMetrics(reason: MetricsError) | MissingTrial(trial: Trial)

  /** The place of a run in the comparison. */
  datatype Trial = Trial(taskId: string, variant: Variant, trialIndex: nat)

  function TrialOf(m: Measurement): Trial {
    Trial(m.taskId, m.variant, m.trialIndex)
  }

  const BY_TRIAL: Measurement -> Trial := (m: Measurement) => TrialOf(m)
  const BY_RUN_ID: Measurement -> string := (m: Measurement) => m.runId
  const BY_TRIAL_ID: Measurement -> string := (m: Measurement) => m.trialId
  const BY_CAPTURE: Measurement -> string := (m: Measurement) => m.rawCaptureDigest
  const BY_WORKSPACE: Measurement -> string := (m: Measurement) => m.workspaceInstanceId

  // ----- admission of one run -----

  function ProfileFor(profiles: seq<VariantProfile>, variant: Variant): Option<VariantProfile> {
    if profiles == [] then None
    else if profiles[0].variant == variant then Some(profiles[0])
    else ProfileFor(profiles[1..], variant)
  }

  predicate IdentityMatches(m: Measurement, task: Task, corpusDigest: string) {
    var profile := ProfileFor(task.profiles, m.variant);
    m.corpusDigest == corpusDigest && m.seal == task.seal && profile.Some? && m.identity == profile.value.identity
  }

  predicate Scheduled(schedule: seq<ScheduleEntry>, m: Measurement) {
    ScheduleEntry(m.trialIndex, m.schedulePosition, m.variant) in schedule
  }

  ghost predicate Admitted(rules: Rules, c: Manifest, m: Measurement) {
    && (exists task :: task in c.tasks && task.taskId == m.taskId && IdentityMatches(m, task, c.corpusDigest))
    && m.trialIndex < c.requiredTrialCount && Scheduled(c.schedule, m)
    && Fault(rules, m).None?
  }

  /** No two runs share a place, an identity, a capture or a workspace. */
  ghost predicate SeparateRuns(runs: seq<Measurement>) {
    && DistinctBy(runs, BY_TRIAL) && DistinctBy(runs, BY_RUN_ID) && DistinctBy(runs, BY_TRIAL_ID)
    && DistinctBy(runs, BY_CAPTURE) && DistinctBy(runs, BY_WORKSPACE)
  }

  ghost predicate Covered(c: Manifest, trials: set<Trial>) {
    forall task, v: Variant, t: nat | task in c.tasks && t < c.requiredTrialCount ::
      Trial(task.taskId, v, t) in trials
  }

  ghost predicate Acceptable(rules: Rules, digester: Digester, r: Request) {
    && r.schemaVersion == "ao.next.comparison-request.v2"
    && ValidCorpus(rules, digester, r.corpus)
    && (forall m | m in r.runs :: Admitted(rules, r.corpus, m))
    && SeparateRuns(r.runs)
    && Covered(r.corpus, KeysBy(r.runs, BY_TRIAL))
  }

  ghost predicate RowsFor(rows: seq<MetricRow>, runs: seq<Measurement>) {
    |rows| == |runs| && forall k | 0 <= k < |runs| :: IsRow(rows[k], runs[k])
  }

  // ----- the checking loops -----

  method TasksById(tasks: seq<Task>) returns (byId: map<string, Task>)
    requires DistinctBy(tasks, BY_TASK)
    ensures forall task | task in tasks :: task.taskId in byId && byId[task.taskId] == task
    ensures forall id | id in byId :: byId[id] in tasks && byId[id].taskId == id
  {
    byId := map[];
    var i := 0;
    while i < |tasks|
      invariant i <= |tasks|
      invariant forall k | 0 <= k < i :: tasks[k].taskId in byId && byId[tasks[k].taskId] == tasks[k]
      invariant forall id | id in byId :: byId[id] in tasks && byId[id].taskId == id
    {
      assert forall k | 0 <= k < i :: BY_TASK(tasks[k]) != BY_TASK(tasks[i]);
      byId := byId[tasks[i].taskId := tasks[i]];
      i := i + 1;
    }
  }

  /** Identity and schedule of one run. */
  method AdmitRun(c: Manifest, byId: map<string, Task>, m: Measurement) returns (fault: Option<EvaluationError>)
    requires forall task | task in c.tasks :: task.taskId in byId && byId[task.taskId] == task
    requires forall id | id in byId :: byId[id] in c.tasks && byId[id].taskId == id
    ensures fault.Some? ==> fault.value.RunIdentityMismatch? || fault.value.TrialIdentityMismatch?
    ensures fault.None? <==>
      && (exists task :: task in c.tasks && task.taskId == m.taskId && IdentityMatches(m, task, c.corpusDigest))
      && m.trialIndex < c.requiredTrialCount && Scheduled(c.schedule, m)
  {
    if m.taskId !in byId { return Some(RunIdentityMismatch); }
    if !IdentityMatches(m, byId[m.taskId], c.corpusDigest) { return Some(RunIdentityMismatch); }
    if m.trialIndex >= c.requiredTrialCount || !Scheduled(c.schedule, m) { return Some(TrialIdentityMismatch); }
    fault := None;
  }

  /** The identities seen so far; each of the five may be used once. */
  datatype Seen = Seen(
    trials: set<Trial>, runIds: set<string>, trialIds: set<string>, captures: set<string>, workspaces: set<string>)

  ghost predicate SeenExactly(s: Seen, runs: seq<Measurement>) {
    && s.trials == KeysBy(runs, BY_TRIAL) && s.runIds == KeysBy(runs, BY_RUN_ID)
    && s.trialIds == KeysBy(runs, BY_TRIAL_ID) && s.captures == KeysBy(runs, BY_CAPTURE)
    && s.workspaces == KeysBy(runs, BY_WORKSPACE)
  }

  predicate Fresh(s: Seen, m: Measurement) {
    && m.runId !in s.runIds && m.trialId !in s.trialIds
    && m.rawCaptureDigest !in s.captures && m.workspaceInstanceId !in s.workspaces
  }

  function Include(s: Seen, m: Measurement): Seen {
    Seen(s.trials + {TrialOf(m)}, s.runIds + {m.runId}, s.trialIds + {m.trialId},
         s.captures + {m.rawCaptureDigest}, s.workspaces + {m.workspaceInstanceId})
  }

  lemma SeenAnother(s: Seen, runs: seq<Measurement>, m: Measurement)
    requires SeenExactly(s, runs)
    ensures SeenExactly(Include(s, m), runs + [m])
    ensures SeparateRuns(runs + [m]) <==> SeparateRuns(runs) && TrialOf(m) !in s.trials && Fresh(s, m)
  {
    AppendBy(runs, m, BY_TRIAL);
    AppendBy(runs, m, BY_RUN_ID);
    AppendBy(runs, m, BY_TRIAL_ID);
    AppendBy(runs, m, BY_CAPTURE);
    AppendBy(runs, m, BY_WORKSPACE);
  }

  /** The loop after some of the runs. */
  ghost predicate Progress(rules: Rules, c: Manifest, runs: seq<Measurement>, seen: Seen, rows: seq<MetricRow>) {
    && (forall m | m in runs :: Admitted(rules, c, m))
    && SeparateRuns(runs) && SeenExactly(seen, runs) && RowsFor(rows, runs)
  }

  lemma OneMore(
    rules: Rules, c: Manifest, runs: seq<Measurement>, seen: Seen, rows: seq<MetricRow>, m: Measurement, row: MetricRow)
    requires Progress(rules, c, runs, seen, rows) && Admitted(rules, c, m) && IsRow(row, m)
    requires TrialOf(m) !in seen.trials && Fresh(seen, m)
    ensures Progress(rules, c, runs + [m], Include(seen, m), rows + [row])
  {
    SeenAnother(seen, runs, m);
  }

  lemma NotSeparate(runs: seq<Measurement>, i: nat, seen: Seen)
    requires i < |runs| && SeenExactly(seen, runs[..i]) && (TrialOf(runs[i]) in seen.trials || !Fresh(seen, runs[i]))
    ensures !SeparateRuns(runs)
    ensures TrialOf(runs[i]) in seen.trials ==> !DistinctBy(runs, BY_TRIAL)
  {
    if TrialOf(runs[i]) in seen.trials { RepeatedBy(runs, i, BY_TRIAL); }
    if runs[i].runId in seen.runIds { RepeatedBy(runs, i, BY_RUN_ID); }
    if runs[i].trialId in seen.trialIds { RepeatedBy(runs, i, BY_TRIAL_ID); }
    if runs[i].rawCaptureDigest in seen.captures { RepeatedBy(runs, i, BY_CAPTURE); }
    if runs[i].workspaceInstanceId in seen.workspaces { RepeatedBy(runs, i, BY_WORKSPACE); }
  }

  lemma NothingAdmitted(rules: Rules, c: Manifest)
    ensures Progress(rules, c, [], Seen({}, {}, {}, {}, {}), [])
  {
  }

  method AdmitRuns(rules: Rules, c: Manifest, runs: seq<Measurement>)
    returns (r: Result<seq<MetricRow>, EvaluationError>, seen: Seen)
    requires DistinctBy(c.tasks, BY_TASK)
    ensures r.Success? <==> (forall m | m in runs :: Admitted(rules, c, m)) && SeparateRuns(runs)
    ensures r.Success? ==> RowsFor(r.value, runs) && SeenExactly(seen, runs)
    ensures r.Failure? ==> !r.error.MissingTrial?
    ensures r.Failure? && r.error.DuplicateTrial? ==> !DistinctBy(runs, BY_TRIAL)
  {
    hide SeparateRuns, RowsFor, SeenExactly, IsRow, IdentityMatches, Fault;
    var byId := TasksById(c.tasks);
    var rows := [];
    seen := Seen({}, {}, {}, {}, {});
    NothingAdmitted(rules, c);
    var i := 0;
    while i < |runs|
      invariant i <= |runs|
      invariant Progress(rules, c, runs[..i], seen, rows)
    {
      var m := runs[i];
      assert m in runs;
      var fault := AdmitRun(c, byId, m);
      if fault.Some? { return Failure(fault.value), seen; }
      if TrialOf(m) in seen.trials || !Fresh(seen, m) {
        NotSeparate(runs, i, seen);
        return Failure(if TrialOf(m) in seen.trials then DuplicateTrial else ReusedProvenance), seen;
      }
      var row := DeriveMetrics(rules, m);
      if row.Failure? { return Failure(RejectedMetrics(row.error)), seen; }
      OneMore(rules, c, runs[..i], seen, rows, m, row.value);
      assert runs[..i + 1] == runs[..i] + [m];
      seen := Include(seen, m);
      rows := rows + [row.value];
      i := i + 1;
    }
    assert runs[..i] == runs;
    r := Success(rows);
  }

  method CheckCoverage(c: Manifest, observed: set<Trial>) returns (missing: Option<Trial>)
    ensures missing.None? <==> Covered(c, observed)
    ensures missing.Some? ==> missing.value !in observed
  {
    var variants := [N0, N4, N7];
    var i := 0;
    while i < |c.tasks|
      invariant i <= |c.tasks|
      invariant forall k, v: Variant, t: nat | 0 <= k < i && t < c.requiredTrialCount ::
        Trial(c.tasks[k].taskId, v, t) in observed
    {
      var id := c.tasks[i].taskId;
      assert c.tasks[i] in c.tasks;
      var j := 0;
      while j < 3
        invariant j <= 3
        invariant forall k, t: nat | 0 <= k < j && t < c.requiredTrialCount :: Trial(id, variants[k], t) in observed
      {
        var t := 0;
        while t < c.requiredTrialCount
          invariant t <= c.requiredTrialCount
          invariant forall u: nat | u < t :: Trial(id, variants[j], u) in observed
        {
          if Trial(id, variants[j], t) !in observed { return Some(Trial(id, variants[j], t)); }
          t := t + 1;
        }
        j := j + 1;
      }
      forall v: Variant, t: nat | t < c.requiredTrialCount
        ensures Trial(id, v, t) in observed
      {
        assert v == variants[0] || v == variants[1] || v == variants[2];
      }
      i := i + 1;
    }
    missing := None;
  }
}
