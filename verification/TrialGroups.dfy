/**
 What the duplicate check and the coverage check force together: exactly one run for every task,
 variant and trial, so that every group the report takes a median of has three rows.
 */
module TrialGroups {
  import opened Admission
  import opened Corpus
  import opened Distinct
  import opened Metrics
  import opened Ordering

  datatype Group = Group(taskId: string, variant: Variant)

  function GroupOf(row: MetricRow): Group {
    Group(row.measurement.taskId, row.measurement.variant)
  }

  /** The rows of one task and variant, in their order. */
  function Members(rows: seq<MetricRow>, g: Group): seq<MetricRow> {
    if rows == [] then []
    else (if GroupOf(rows[0]) == g then [rows[0]] else []) + Members(rows[1..], g)
  }

  lemma {:induction false} MembersAppend(rows: seq<MetricRow>, row: MetricRow, g: Group)
    ensures Members(rows + [row], g) == Members(rows, g) + if GroupOf(row) == g then [row] else []
  {
    if rows == [] {
      assert rows + [row] == [row];
    } else {
      assert (rows + [row])[1..] == rows[1..] + [row];
      MembersAppend(rows[1..], row, g);
    }
  }

  lemma {:induction false} MembersIn(rows: seq<MetricRow>, g: Group, row: MetricRow)
    ensures row in Members(rows, g) <==> row in rows && GroupOf(row) == g
  {
    if rows != [] { MembersIn(rows[1..], g, row); }
  }

  const BY_ROW_TRIAL: MetricRow -> Trial := (row: MetricRow) => TrialOf(row.measurement)
  const BY_INDEX: MetricRow -> nat := (row: MetricRow) => row.measurement.trialIndex

  /** Within a group the trial index alone tells rows apart. */
  lemma {:induction false} MembersDistinct(rows: seq<MetricRow>, g: Group)
    requires DistinctBy(rows, BY_ROW_TRIAL)
    ensures DistinctBy(Members(rows, g), BY_INDEX)
  {
    if rows != [] {
      var rest := Members(rows[1..], g);
      MembersDistinct(rows[1..], g);
      if GroupOf(rows[0]) == g {
        forall k | 0 <= k < |rest|
          ensures BY_INDEX(rows[0]) != BY_INDEX(rest[k])
        {
          MembersIn(rows[1..], g, rest[k]);
          var m :| 0 <= m < |rows[1..]| && rows[1..][m] == rest[k];
          assert BY_ROW_TRIAL(rows[0]) != BY_ROW_TRIAL(rows[m + 1]);
        }
      }
    }
  }

  lemma TrialRun(rules: Rules, digester: Digester, r: Request, task: Task, v: Variant, t: nat) returns (k: nat)
    requires Acceptable(rules, digester, r) && task in r.corpus.tasks && t < TRIALS
    ensures k < |r.runs| && TrialOf(r.runs[k]) == Trial(task.taskId, v, t)
    ensures r.runs[k].schedulePosition == Position(v, t)
  {
    hide Fault, IdentityMatches, SeparateRuns;
    assert Trial(task.taskId, v, t) in KeysBy(r.runs, BY_TRIAL);
    var m :| m in r.runs && BY_TRIAL(m) == Trial(task.taskId, v, t);
    k :| 0 <= k < |r.runs| && r.runs[k] == m;
    ScheduleBalanced(v, t, m.schedulePosition);
    assert Admitted(rules, r.corpus, m);
  }

  /** Some run is the trial, no other run is, and it took the trial's scheduled place. */
  lemma TrialExactlyOnce(rules: Rules, digester: Digester, r: Request, task: Task, v: Variant, t: nat) returns (k: nat)
    requires Acceptable(rules, digester, r) && task in r.corpus.tasks && t < TRIALS
    ensures k < |r.runs| && TrialOf(r.runs[k]) == Trial(task.taskId, v, t)
    ensures r.runs[k].schedulePosition == Position(v, t)
    ensures forall j | 0 <= j < |r.runs| && TrialOf(r.runs[j]) == Trial(task.taskId, v, t) :: j == k
  {
    hide Covered, Admitted;
    k := TrialRun(rules, digester, r, task, v, t);
    forall j | 0 <= j < |r.runs| && TrialOf(r.runs[j]) == Trial(task.taskId, v, t)
      ensures j == k
    {
      assert BY_TRIAL(r.runs[j]) == BY_TRIAL(r.runs[k]);
    }
  }

  /** Every run is one of those trials: nothing else was admitted. */
  lemma RunIsATrial(rules: Rules, digester: Digester, r: Request, k: nat)
    requires Acceptable(rules, digester, r) && k < |r.runs|
    ensures r.runs[k].trialIndex < TRIALS
    ensures exists task :: task in r.corpus.tasks && task.taskId == r.runs[k].taskId
  {
    assert Admitted(rules, r.corpus, r.runs[k]);
  }

  ghost predicate Accepted(rules: Rules, digester: Digester, r: Request, rows: seq<MetricRow>) {
    Acceptable(rules, digester, r) && RowsFor(rows, r.runs)
  }

  lemma RowsDistinct(rules: Rules, digester: Digester, r: Request, rows: seq<MetricRow>)
    requires Accepted(rules, digester, r, rows)
    ensures DistinctBy(rows, BY_ROW_TRIAL)
  {
    forall i, j | 0 <= i < j < |rows|
      ensures BY_ROW_TRIAL(rows[i]) != BY_ROW_TRIAL(rows[j])
    {
      assert BY_TRIAL(r.runs[i]) != BY_TRIAL(r.runs[j]);
    }
  }

  /** A task and a variant have exactly three rows, one for each trial. */
  lemma GroupOfThree(
    rules: Rules, digester: Digester, r: Request, rows: seq<MetricRow>, task: Task, v: Variant)
    requires Accepted(rules, digester, r, rows) && task in r.corpus.tasks
    ensures |Members(rows, Group(task.taskId, v))| == 3
    ensures DistinctBy(Members(rows, Group(task.taskId, v)), BY_INDEX)
    ensures KeysBy(Members(rows, Group(task.taskId, v)), BY_INDEX) == {0, 1, 2}
  {
    var members := Members(rows, Group(task.taskId, v));
    RowsDistinct(rules, digester, r, rows);
    MembersDistinct(rows, Group(task.taskId, v));
    forall t: nat
      ensures t in KeysBy(members, BY_INDEX) <==> t < 3
    {
      IndexPresent(rules, digester, r, rows, task, v, t);
    }
    assert KeysBy(members, BY_INDEX) == {0, 1, 2};
    CountBy(members, BY_INDEX);
  }

  lemma IndexPresent(
    rules: Rules, digester: Digester, r: Request, rows: seq<MetricRow>, task: Task, v: Variant, t: nat)
    requires Accepted(rules, digester, r, rows) && task in r.corpus.tasks
    ensures t in KeysBy(Members(rows, Group(task.taskId, v)), BY_INDEX) <==> t < 3
  {
    var members := Members(rows, Group(task.taskId, v));
    if t < 3 {
      var k := TrialExactlyOnce(rules, digester, r, task, v, t);
      assert IsRow(rows[k], r.runs[k]);
      MembersIn(rows, Group(task.taskId, v), rows[k]);
      assert BY_INDEX(rows[k]) == t;
    }
    if t in KeysBy(members, BY_INDEX) {
      var row :| row in members && BY_INDEX(row) == t;
      MembersIn(rows, Group(task.taskId, v), row);
      var k :| 0 <= k < |rows| && rows[k] == row;
      assert IsRow(rows[k], r.runs[k]);
      RunIsATrial(rules, digester, r, k);
    }
  }

  // ----- nine runs per task -----

  function OfTask(rows: seq<MetricRow>, id: string): seq<MetricRow> {
    if rows == [] then []
    else (if rows[0].measurement.taskId == id then [rows[0]] else []) + OfTask(rows[1..], id)
  }

  function NotOfTask(rows: seq<MetricRow>, id: string): seq<MetricRow> {
    if rows == [] then []
    else (if rows[0].measurement.taskId != id then [rows[0]] else []) + NotOfTask(rows[1..], id)
  }

  lemma {:induction false} TaskSplits(rows: seq<MetricRow>, id: string)
    ensures |OfTask(rows, id)| ==
      |Members(rows, Group(id, N0))| + |Members(rows, Group(id, N4))| + |Members(rows, Group(id, N7))|
    ensures |rows| == |OfTask(rows, id)| + |NotOfTask(rows, id)|
  {
    if rows != [] {
      TaskSplits(rows[1..], id);
      var v := rows[0].measurement.variant;
      assert v == N0 || v == N4 || v == N7;
    }
  }

  lemma {:induction false} OthersKept(rows: seq<MetricRow>, id: string, other: string)
    requires id != other
    ensures OfTask(NotOfTask(rows, id), other) == OfTask(rows, other)
  {
    if rows != [] {
      OthersKept(rows[1..], id, other);
      var rest := NotOfTask(rows[1..], id);
      if rows[0].measurement.taskId == id {
        assert NotOfTask(rows, id) == rest;
      } else {
        assert ([rows[0]] + rest)[1..] == rest;
      }
    }
  }

  lemma {:induction false} NotOfTaskIn(rows: seq<MetricRow>, id: string, row: MetricRow)
    ensures row in NotOfTask(rows, id) <==> row in rows && row.measurement.taskId != id
  {
    if rows != [] { NotOfTaskIn(rows[1..], id, row); }
  }

  /** Nine rows for every task and no row without a task add up. */
  lemma {:induction false} NineEach(rows: seq<MetricRow>, tasks: seq<Task>)
    requires DistinctBy(tasks, BY_TASK)
    requires forall task | task in tasks :: |OfTask(rows, task.taskId)| == 9
    requires forall row | row in rows :: row.measurement.taskId in KeysBy(tasks, BY_TASK)
    ensures |rows| == 9 * |tasks|
    decreases |tasks|
  {
    if tasks == [] {
      BothEmpty(rows, []);
    } else {
      var id, later := tasks[0].taskId, tasks[1..];
      var others := NotOfTask(rows, id);
      TaskSplits(rows, id);
      forall task | task in later
        ensures |OfTask(others, task.taskId)| == 9
      {
        var k :| 0 <= k < |later| && later[k] == task;
        assert BY_TASK(tasks[0]) != BY_TASK(tasks[k + 1]);
        OthersKept(rows, id, task.taskId);
      }
      forall row | row in others
        ensures row.measurement.taskId in KeysBy(later, BY_TASK)
      {
        NotOfTaskIn(rows, id, row);
        var task :| task in tasks && BY_TASK(task) == row.measurement.taskId;
        assert task in later;
      }
      NineEach(others, later);
    }
  }

  /** An accepted comparison has exactly nine runs per task, and no others. */
  lemma NinePerTask(rules: Rules, digester: Digester, r: Request, rows: seq<MetricRow>)
    requires Accepted(rules, digester, r, rows)
    ensures forall task | task in r.corpus.tasks :: |OfTask(rows, task.taskId)| == 9
    ensures |r.runs| == 9 * |r.corpus.tasks|
  {
    forall task | task in r.corpus.tasks
      ensures |OfTask(rows, task.taskId)| == 9
    {
      TaskSplits(rows, task.taskId);
      GroupOfThree(rules, digester, r, rows, task, N0);
      GroupOfThree(rules, digester, r, rows, task, N4);
      GroupOfThree(rules, digester, r, rows, task, N7);
    }
    forall row | row in rows
      ensures row.measurement.taskId in KeysBy(r.corpus.tasks, BY_TASK)
    {
      RowHasTask(rules, digester, r, rows, row);
    }
    NineEach(rows, r.corpus.tasks);
  }

  lemma RowHasTask(rules: Rules, digester: Digester, r: Request, rows: seq<MetricRow>, row: MetricRow)
    requires Accepted(rules, digester, r, rows) && row in rows
    ensures row.measurement.taskId in KeysBy(r.corpus.tasks, BY_TASK)
  {
    var k :| 0 <= k < |rows| && rows[k] == row;
    assert IsRow(rows[k], r.runs[k]);
    RunIsATrial(rules, digester, r, k);
    var task :| task in r.corpus.tasks && task.taskId == r.runs[k].taskId;
    assert BY_TASK(task) == row.measurement.taskId;
  }
}
