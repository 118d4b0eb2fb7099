/**
 The medians of an accepted comparison, per task and variant and per variant
 (crates/ao-next-eval/src/comparison.rs, `summarize`).
 */
module Comparison {
  import opened Admission
  import opened Corpus
  import opened Distinct
  import opened Medians
  import opened Metrics
  import opened Ordering
  import opened TrialGroups
  import opened Words

  // ----- grouping and medians -----

  predicate VariantBefore(a: Variant, b: Variant) {
    (a == N0 && b != N0) || (a == N4 && b == N7)
  }

  predicate GroupBefore(a: Group, b: Group) {
    if a.taskId != b.taskId then Before(a.taskId, b.taskId) else VariantBefore(a.variant, b.variant)
  }

  const BY_GROUP: (Group, Group) -> bool := (a, b) => GroupBefore(a, b)

  lemma ByGroupOrders()
    ensures StrictOrder(BY_GROUP)
  {
    forall a: Group, b: Group
      ensures GroupBefore(a, b) || a == b || GroupBefore(b, a)
      ensures !(GroupBefore(a, b) && GroupBefore(b, a))
    {
      BeforeTotal(a.taskId, b.taskId);
    }
    forall a: Group, b: Group, c: Group | GroupBefore(a, b) && GroupBefore(b, c)
      ensures GroupBefore(a, c)
    {
      BeforeTotal(a.taskId, b.taskId);
      if a.taskId != b.taskId && b.taskId != c.taskId { BeforeTransitive(a.taskId, b.taskId, c.taskId); }
    }
  }

  function TokensOf(rows: seq<MetricRow>): (values: seq<U64>)
    ensures |values| == |rows| && forall i | 0 <= i < |rows| :: values[i] == rows[i].totalTokens
  {
    if rows == [] then [] else [rows[0].totalTokens] + TokensOf(rows[1..])
  }

  function ClocksOf(rows: seq<MetricRow>): (values: seq<U64>)
    ensures |values| == |rows| && forall i | 0 <= i < |rows| :: values[i] == rows[i].measurement.wallClockMs
  {
    if rows == [] then [] else [rows[0].measurement.wallClockMs] + ClocksOf(rows[1..])
  }

  function RatesOf(rows: seq<MetricRow>): (values: seq<U64>)
    ensures |values| == |rows| && forall i | 0 <= i < |rows| :: values[i] == rows[i].hiddenTestRate
  {
    if rows == [] then [] else [rows[0].hiddenTestRate] + RatesOf(rows[1..])
  }

  datatype GroupMedian = GroupMedian(group: Group, tokens: U64, clock: U64, hiddenTestRate: U32)

  /** What the median procedure may answer for these values. */
  ghost predicate IsMedian(values: seq<U64>, m: U64) {
    if |values| % 2 == 1 then IsMiddle(values, m) else IsEvenMedian(values, m)
  }

  ghost predicate Summarizes(s: GroupMedian, rows: seq<MetricRow>) {
    && rows != []
    && IsMedian(TokensOf(rows), s.tokens) && IsMedian(ClocksOf(rows), s.clock)
    && exists rate: U64 :: IsMedian(RatesOf(rows), rate) && s.hiddenTestRate == NarrowOr(rate, 10_000)
  }

  method SummarizeGroup(g: Group, rows: seq<MetricRow>) returns (s: GroupMedian)
    requires rows != []
    ensures s.group == g && Summarizes(s, rows)
  {
    var tokens := Median(TokensOf(rows));
    var clock := Median(ClocksOf(rows));
    var rate := Median(RatesOf(rows));
    assert IsMedian(RatesOf(rows), rate);
    s := GroupMedian(g, tokens, clock, NarrowOr(rate, 10_000));
  }

  method GroupRows(rows: seq<MetricRow>) returns (grouped: map<Group, seq<MetricRow>>)
    ensures forall g :: (g in grouped <==> Members(rows, g) != [])
    ensures forall g | g in grouped :: grouped[g] == Members(rows, g)
  {
    grouped := map[];
    var i := 0;
    while i < |rows|
      invariant i <= |rows|
      invariant forall g :: (g in grouped <==> Members(rows[..i], g) != [])
      invariant forall g | g in grouped :: grouped[g] == Members(rows[..i], g)
    {
      var row := rows[i];
      assert rows[..i + 1] == rows[..i] + [row];
      forall g { MembersAppend(rows[..i], row, g); }
      var known := if GroupOf(row) in grouped then grouped[GroupOf(row)] else [];
      grouped := grouped[GroupOf(row) := known + [row]];
      i := i + 1;
    }
    assert rows[..i] == rows;
  }

  function GroupNames(medians: seq<GroupMedian>): (names: seq<Group>)
    ensures |names| == |medians| && forall i | 0 <= i < |medians| :: names[i] == medians[i].group
  {
    if medians == [] then [] else [medians[0].group] + GroupNames(medians[1..])
  }

  /** One summary per group that has rows, in order of task and variant. */
  ghost predicate IsSummary(medians: seq<GroupMedian>, rows: seq<MetricRow>) {
    && Ascending(GroupNames(medians), BY_GROUP)
    && (forall g :: g in GroupNames(medians) <==> Members(rows, g) != [])
    && (forall s | s in medians :: Summarizes(s, Members(rows, s.group)))
  }

  /** The groups summarized so far, in the order of their names. */
  ghost predicate Summarized(rows: seq<MetricRow>, names: seq<Group>, medians: seq<GroupMedian>) {
    && |medians| <= |names|
    && forall k | 0 <= k < |medians| ::
         medians[k].group == names[k] && Summarizes(medians[k], Members(rows, names[k]))
  }

  lemma SummarizedMore(rows: seq<MetricRow>, names: seq<Group>, medians: seq<GroupMedian>, s: GroupMedian)
    requires Summarized(rows, names, medians) && |medians| < |names|
    requires s.group == names[|medians|] && Summarizes(s, Members(rows, s.group))
    ensures Summarized(rows, names, medians + [s])
  {
  }

  lemma SummaryComplete(rows: seq<MetricRow>, names: seq<Group>, medians: seq<GroupMedian>)
    requires Summarized(rows, names, medians) && |medians| == |names|
    requires Ascending(names, BY_GROUP) && (forall g :: g in names <==> Members(rows, g) != [])
    ensures IsSummary(medians, rows)
  {
    assert GroupNames(medians) == names;
    forall s | s in medians
      ensures Summarizes(s, Members(rows, s.group))
    {
      var k :| 0 <= k < |medians| && medians[k] == s;
    }
  }

  method SummarizeGroups(rows: seq<MetricRow>) returns (medians: seq<GroupMedian>)
    ensures IsSummary(medians, rows)
  {
    hide Summarizes, Members, Ascending, StrictOrder;
    var grouped := GroupRows(rows);
    ByGroupOrders();
    var names := SortedElements(grouped.Keys, BY_GROUP);
    medians := [];
    while |medians| < |names|
      invariant Summarized(rows, names, medians)
    {
      var g := names[|medians|];
      assert g in names;
      var s := SummarizeGroup(g, grouped[g]);
      SummarizedMore(rows, names, medians, s);
      medians := medians + [s];
    }
    SummaryComplete(rows, names, medians);
  }

  // ----- over all tasks -----

  /** The medians of one variant, in the order of the tasks. */
  function OfVariant(medians: seq<GroupMedian>, v: Variant): seq<GroupMedian> {
    if medians == [] then []
    else (if medians[0].group.variant == v then [medians[0]] else []) + OfVariant(medians[1..], v)
  }

  function GroupTokens(medians: seq<GroupMedian>): (values: seq<U64>)
    ensures |values| == |medians| && forall i | 0 <= i < |medians| :: values[i] == medians[i].tokens
  {
    if medians == [] then [] else [medians[0].tokens] + GroupTokens(medians[1..])
  }

  function GroupClocks(medians: seq<GroupMedian>): (values: seq<U64>)
    ensures |values| == |medians| && forall i | 0 <= i < |medians| :: values[i] == medians[i].clock
  {
    if medians == [] then [] else [medians[0].clock] + GroupClocks(medians[1..])
  }

  datatype Overall = Overall(tokens: U64, clock: U64)

  ghost predicate IsOverall(o: Overall, medians: seq<GroupMedian>, v: Variant) {
    && IsMedian(GroupTokens(OfVariant(medians, v)), o.tokens)
    && IsMedian(GroupClocks(OfVariant(medians, v)), o.clock)
  }

  method SummarizeVariant(medians: seq<GroupMedian>, v: Variant) returns (o: Overall)
    requires OfVariant(medians, v) != []
    ensures IsOverall(o, medians, v)
  {
    var group := OfVariant(medians, v);
    var tokens := Median(GroupTokens(group));
    var clock := Median(GroupClocks(group));
    o := Overall(tokens, clock);
  }

  lemma {:induction false} OfVariantIn(medians: seq<GroupMedian>, v: Variant, s: GroupMedian)
    ensures s in OfVariant(medians, v) <==> s in medians && s.group.variant == v
  {
    if medians != [] { OfVariantIn(medians[1..], v, s); }
  }

  /** Exactly the tasks of the corpus, with every variant, are summarized. */
  lemma SummaryCoversTasks(
    rules: Rules, digester: Digester, r: Request, rows: seq<MetricRow>, medians: seq<GroupMedian>, g: Group)
    requires Accepted(rules, digester, r, rows) && IsSummary(medians, rows)
    ensures g in GroupNames(medians) <==> g.taskId in KeysBy(r.corpus.tasks, BY_TASK)
  {
    var members := Members(rows, g);
    if members != [] {
      MembersIn(rows, g, members[0]);
      RowHasTask(rules, digester, r, rows, members[0]);
    }
    if g.taskId in KeysBy(r.corpus.tasks, BY_TASK) {
      var task :| task in r.corpus.tasks && BY_TASK(task) == g.taskId;
      GroupOfThree(rules, digester, r, rows, task, g.variant);
    }
  }

  lemma GroupSummarized(
    rules: Rules, digester: Digester, r: Request, rows: seq<MetricRow>, medians: seq<GroupMedian>, task: Task,
    v: Variant) returns (s: GroupMedian)
    requires Accepted(rules, digester, r, rows) && IsSummary(medians, rows) && task in r.corpus.tasks
    ensures s in medians && s.group == Group(task.taskId, v)
  {
    assert BY_TASK(task) == task.taskId;
    SummaryCoversTasks(rules, digester, r, rows, medians, Group(task.taskId, v));
    var names := GroupNames(medians);
    var k :| 0 <= k < |names| && names[k] == Group(task.taskId, v);
    s := medians[k];
  }

  /** No variant's list of medians is empty. */
  lemma EveryVariantSummarized(
    rules: Rules, digester: Digester, r: Request, rows: seq<MetricRow>, medians: seq<GroupMedian>, v: Variant)
    requires Accepted(rules, digester, r, rows) && IsSummary(medians, rows)
    ensures OfVariant(medians, v) != []
  {
    var task := r.corpus.tasks[0];
    var s := GroupSummarized(rules, digester, r, rows, medians, task, v);
    OfVariantIn(medians, v, s);
  }

  /** The derived rows and the summary of a report. */
  datatype Report = Report(rows: seq<MetricRow>, medians: seq<GroupMedian>, n0: Overall, n4: Overall, n7: Overall)

  ghost predicate IsReport(report: Report, r: Request) {
    && RowsFor(report.rows, r.runs) && IsSummary(report.medians, report.rows)
    && IsOverall(report.n0, report.medians, N0) && IsOverall(report.n4, report.medians, N4)
    && IsOverall(report.n7, report.medians, N7)
  }

  method Summarize(ghost rules: Rules, ghost digester: Digester, ghost request: Request, rows: seq<MetricRow>)
    returns (report: Report)
    requires Accepted(rules, digester, request, rows)
    ensures IsReport(report, request) && report.rows == rows
  {
    var medians := SummarizeGroups(rows);
    EveryVariantSummarized(rules, digester, request, rows, medians, N0);
    EveryVariantSummarized(rules, digester, request, rows, medians, N4);
    EveryVariantSummarized(rules, digester, request, rows, medians, N7);
    var n0 := SummarizeVariant(medians, N0);
    var n4 := SummarizeVariant(medians, N4);
    var n7 := SummarizeVariant(medians, N7);
    report := Report(rows, medians, n0, n4, n7);
  }

  // ----- what an accepted report says -----

  lemma SummaryGroupOfThree(rules: Rules, digester: Digester, r: Request, report: Report, s: GroupMedian)
    requires Acceptable(rules, digester, r) && IsReport(report, r) && s in report.medians
    ensures |Members(report.rows, s.group)| == 3
    ensures Summarizes(s, Members(report.rows, s.group))
  {
    var k :| 0 <= k < |report.medians| && report.medians[k] == s;
    assert GroupNames(report.medians)[k] == s.group;
    SummaryCoversTasks(rules, digester, r, report.rows, report.medians, s.group);
    var task :| task in r.corpus.tasks && BY_TASK(task) == s.group.taskId;
    GroupOfThree(rules, digester, r, report.rows, task, s.group.variant);
  }

  lemma RatesBounded(rows: seq<MetricRow>, runs: seq<Measurement>, g: Group, rate: U64)
    requires RowsFor(rows, runs) && rate in RatesOf(Members(rows, g))
    ensures rate <= 10_000
  {
    var members := Members(rows, g);
    var i :| 0 <= i < |members| && RatesOf(members)[i] == rate;
    MembersIn(rows, g, members[i]);
    var k :| 0 <= k < |rows| && rows[k] == members[i];
    assert IsRow(rows[k], runs[k]);
  }

  lemma OddMedian(values: seq<U64>, m: U64)
    requires |values| == 3 && IsMedian(values, m)
    ensures IsMiddle(values, m)
  {
  }

  lemma MediansOfThree(s: GroupMedian, members: seq<MetricRow>) returns (rate: U64)
    requires |members| == 3 && Summarizes(s, members)
    ensures IsMiddle(TokensOf(members), s.tokens) && IsMiddle(ClocksOf(members), s.clock)
    ensures IsMiddle(RatesOf(members), rate) && s.hiddenTestRate == NarrowOr(rate, 10_000)
  {
    var tokens, clocks, rates := TokensOf(members), ClocksOf(members), RatesOf(members);
    rate :| IsMedian(rates, rate) && s.hiddenTestRate == NarrowOr(rate, 10_000);
    OddMedian(tokens, s.tokens);
    OddMedian(clocks, s.clock);
    OddMedian(rates, rate);
  }

  /** Every group median is the true middle of its three rows, and a hidden-test rate stays a rate. */
  lemma GroupMediansAreMiddles(
    rules: Rules, digester: Digester, r: Request, report: Report, s: GroupMedian)
    requires Acceptable(rules, digester, r) && IsReport(report, r) && s in report.medians
    ensures var members := Members(report.rows, s.group);
      && |members| == 3
      && IsMiddle(TokensOf(members), s.tokens) && IsMiddle(ClocksOf(members), s.clock)
      && IsMiddle(RatesOf(members), s.hiddenTestRate) && s.hiddenTestRate <= 10_000
  {
    var members := Members(report.rows, s.group);
    SummaryGroupOfThree(rules, digester, r, report, s);
    var rate := MediansOfThree(s, members);
    RatesBounded(report.rows, r.runs, s.group, rate);
  }
}
