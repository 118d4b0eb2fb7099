/**
 The sealed evaluation corpus and its trial schedule (crates/ao-next-eval/src/corpus.rs).
 */
module Corpus {
  import opened Distinct
  import opened Metrics
  import opened Words
  import opened Wrappers

  datatype Kind = SyntheticUnitTest | SealedLive

  datatype ScheduleEntry = ScheduleEntry(trialIndex: U32, schedulePosition: U32, variant: Variant)

  datatype VariantProfile = VariantProfile(variant: Variant, identity: RuntimeIdentity)

  datatype Task = Task(taskId: string, taskKind: string, seal: TaskSeal, profiles: seq<VariantProfile>)

  datatype Manifest = Manifest(
    schemaVersion: string, kind: Kind, corpusDigest: string, requiredTrialCount: U32, schedule: seq<ScheduleEntry>,
    tasks: seq<Task>)

  datatype CorpusError =
    | UnsupportedSchema | Empty | InvalidSchedule | DuplicateTask(id: string) | EmptyTaskKind(id: string)
    | InvalidVariantProfiles(id: string) | DigestMismatch

  /** The digest over kind, trial count, schedule and ordered tasks. */
  type Digester = (Kind, U32, seq<ScheduleEntry>, seq<Task>) -> string

  const TRIALS: U32 := 3

  function CounterbalancedSchedule(): seq<ScheduleEntry> {
    [ScheduleEntry(0, 0, N0), ScheduleEntry(0, 1, N4), ScheduleEntry(0, 2, N7),
     ScheduleEntry(1, 3, N4), ScheduleEntry(1, 4, N7), ScheduleEntry(1, 5, N0),
     ScheduleEntry(2, 6, N7), ScheduleEntry(2, 7, N0), ScheduleEntry(2, 8, N4)]
  }

  /** The place of a variant in a trial; each trial starts with another variant, in the same rotation. */
  function Position(variant: Variant, trialIndex: U32): U32
    requires trialIndex < TRIALS
  {
    var rank := match variant case N0 => 0 case N4 => 1 case N7 => 2;
    3 * trialIndex + (rank + 3 - trialIndex) % 3
  }

  /** Over the trials a variant takes each of the three places once. */
  lemma PlacesBalanced(variant: Variant, t: U32, u: U32)
    requires t < u < TRIALS
    ensures Position(variant, t) / 3 == t && Position(variant, t) % 3 != Position(variant, u) % 3
  {
    assert t == 0 || t == 1;
    assert u == 1 || u == 2;
  }

  /** Each variant has exactly one place in each trial. */
  lemma ScheduleBalanced(variant: Variant, trialIndex: U32, position: U32)
    ensures ScheduleEntry(trialIndex, position, variant) in CounterbalancedSchedule() <==>
      trialIndex < TRIALS && position == Position(variant, trialIndex)
  {
    var s := CounterbalancedSchedule();
    if trialIndex < TRIALS && position == Position(variant, trialIndex) {
      var rank := match variant case N0 => 0 case N4 => 1 case N7 => 2;
      assert s[3 * trialIndex + (rank + 3 - trialIndex) % 3] == ScheduleEntry(trialIndex, position, variant);
    }
  }

  const BY_VARIANT: VariantProfile -> Variant := (p: VariantProfile) => p.variant
  const BY_TASK: Task -> string := (t: Task) => t.taskId

  predicate CompleteProfile(rules: Rules, p: VariantProfile) {
    !rules.isBlank(p.identity.runtime) && !rules.isBlank(p.identity.modelIdentifier)
    && !rules.isBlank(p.identity.adapterVersion)
  }

  ghost predicate HasVariant(profiles: seq<VariantProfile>, v: Variant) {
    exists p :: p in profiles && p.variant == v
  }

  /** Every variant has exactly one profile. */
  ghost predicate OneProfileEach(profiles: seq<VariantProfile>) {
    && DistinctBy(profiles, BY_VARIANT)
    && forall v: Variant :: HasVariant(profiles, v)
  }

  ghost predicate ValidTask(rules: Rules, task: Task) {
    && !rules.isBlank(task.taskId) && !rules.isBlank(task.taskKind)
    && OneProfileEach(task.profiles) && forall p | p in task.profiles :: CompleteProfile(rules, p)
  }

  ghost predicate ValidCorpus(rules: Rules, digester: Digester, c: Manifest) {
    && c.schemaVersion == "ao.next.evaluation-corpus.v2"
    && c.tasks != [] && c.requiredTrialCount == TRIALS && c.schedule == CounterbalancedSchedule()
    && DistinctBy(c.tasks, BY_TASK)
    && (forall task | task in c.tasks :: ValidTask(rules, task))
    && digester(c.kind, c.requiredTrialCount, c.schedule, c.tasks) == c.corpusDigest
  }

  const VARIANTS: set<Variant> := {N0, N4, N7}

  /** Three profiles with all three variants among them have each variant once. */
  lemma ThreeProfiles(profiles: seq<VariantProfile>)
    ensures KeysBy(profiles, BY_VARIANT) == VARIANTS && |profiles| == 3 <==> OneProfileEach(profiles)
  {
    if KeysBy(profiles, BY_VARIANT) == VARIANTS && |profiles| == 3 {
      ThreeAreDistinct(profiles);
      forall v: Variant { VariantPresent(profiles, v); }
    }
    if OneProfileEach(profiles) {
      assert HasVariant(profiles, N0) && HasVariant(profiles, N4) && HasVariant(profiles, N7);
      forall v: Variant { VariantPresent(profiles, v); }
      assert forall v | v in KeysBy(profiles, BY_VARIANT) :: v in VARIANTS;
      assert KeysBy(profiles, BY_VARIANT) == VARIANTS;
      CountBy(profiles, BY_VARIANT);
    }
  }

  lemma VariantPresent(profiles: seq<VariantProfile>, v: Variant)
    ensures v in VARIANTS
    ensures HasVariant(profiles, v) <==> v in KeysBy(profiles, BY_VARIANT)
  {
    if HasVariant(profiles, v) {
      var p :| p in profiles && p.variant == v;
      assert BY_VARIANT(p) == v;
    }
  }

  lemma ThreeAreDistinct(profiles: seq<VariantProfile>)
    requires KeysBy(profiles, BY_VARIANT) == VARIANTS && |profiles| == 3
    ensures DistinctBy(profiles, BY_VARIANT)
  {
    var a, b, c := profiles[0].variant, profiles[1].variant, profiles[2].variant;
    forall v | v in VARIANTS
      ensures v == a || v == b || v == c
    {
      var p :| p in profiles && BY_VARIANT(p) == v;
    }
    assert N0 in VARIANTS && N4 in VARIANTS && N7 in VARIANTS;
  }

  method ValidateTask(rules: Rules, task: Task) returns (fault: Option<CorpusError>)
    requires !rules.isBlank(task.taskId)
    ensures fault.None? <==> ValidTask(rules, task)
  {
    if rules.isBlank(task.taskKind) { return Some(EmptyTaskKind(task.taskId)); }
    ThreeProfiles(task.profiles);
    if KeysBy(task.profiles, BY_VARIANT) != VARIANTS || |task.profiles| != 3
       || exists p | p in task.profiles :: !CompleteProfile(rules, p) {
      return Some(InvalidVariantProfiles(task.taskId));
    }
    fault := None;
  }

  method Validate(rules: Rules, digester: Digester, c: Manifest) returns (fault: Option<CorpusError>)
    ensures fault.None? <==> ValidCorpus(rules, digester, c)
  {
    if c.schemaVersion != "ao.next.evaluation-corpus.v2" { return Some(CorpusError.UnsupportedSchema); }
    if c.tasks == [] { return Some(Empty); }
    if c.requiredTrialCount != TRIALS || c.schedule != CounterbalancedSchedule() { return Some(InvalidSchedule); }
    var ids := {};
    var i := 0;
    while i < |c.tasks|
      invariant i <= |c.tasks|
      invariant forall k | 0 <= k < i :: ValidTask(rules, c.tasks[k])
      invariant DistinctBy(c.tasks[..i], BY_TASK) && ids == KeysBy(c.tasks[..i], BY_TASK)
    {
      var task := c.tasks[i];
      assert c.tasks[..i + 1] == c.tasks[..i] + [task];
      AppendBy(c.tasks[..i], task, BY_TASK);
      if task.taskId in ids {
        RepeatedBy(c.tasks, i, BY_TASK);
        return Some(DuplicateTask(task.taskId));
      }
      if rules.isBlank(task.taskId) {
        assert task in c.tasks;
        return Some(DuplicateTask(task.taskId));
      }
      fault := ValidateTask(rules, task);
      if fault.Some? {
        assert task in c.tasks;
        return;
      }
      ids := ids + {task.taskId};
      i := i + 1;
    }
    assert c.tasks[..i] == c.tasks;
    if digester(c.kind, c.requiredTrialCount, c.schedule, c.tasks) != c.corpusDigest { return Some(DigestMismatch); }
    fault := None;
  }
}
